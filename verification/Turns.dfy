/**
 A call the operator makes on a world that also changes by itself. Before it, the outside may
 do anything; the call is then served, refused, served with its answer lost, or never made
 because the operator was killed there.
 */
module Turns {
  datatype Fate = Served | Refused | Lost | Killed

  datatype TurnOf<Event> = Turn(before: seq<Event>, fate: Fate)

  predicate Alive<Event>(t: TurnOf<Event>) {
    t.fate != Killed
  }

  /** The effect of a call takes place when it is served, its answer lost or not. */
  predicate TakesEffect<Event>(t: TurnOf<Event>) {
    t.fate == Served || t.fate == Lost
  }

  /** The sooner of two delays, 0 being none. */
  function Soonest(a: nat, b: nat): (r: nat)
    ensures r == 0 <==> a == 0 && b == 0
    ensures (a > 0 ==> r <= a) && (b > 0 ==> r <= b) && (r == a || r == b)
  {
    if a == 0 then b else if b == 0 || a < b then a else b
  }
}
