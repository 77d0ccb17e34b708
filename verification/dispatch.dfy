/** The D-pad half of `handleInput`: which sound and `Ship` calls a frame makes.
    The `Ship` methods are not modelled; their calls are emitted as tokens. */
module Dispatch {
  import opened Input

  /** `playSound(soundData)`, `ship->accelerate()`, `ship->reverseTurn()`,
      `ship->turnCounterClockwise()`, `ship->turnClockwise()`. */
  datatype Action = PlaySound | Accelerate | ReverseTurn | TurnCounterClockwise | TurnClockwise

  /** The group an action belongs to; `handleInput` handles them in this order. */
  function Phase(a: Action): nat {
    match a
    case PlaySound => 0
    case Accelerate => 1
    case ReverseTurn => 1
    case TurnCounterClockwise => 2
    case TurnClockwise => 2
  }

  /** The calls one frame makes, in the order it makes them. */
  function DpadActions(down: set<Key>, held: set<Key>): (acts: seq<Action>)
    // the sound fires on the press edge of UP only
    ensures PlaySound in acts <==> Up in down
    // thrust: UP wins over DOWN
    ensures Accelerate in acts <==> Up in held
    ensures ReverseTurn in acts <==> Down in held && Up !in held
    // turning: LEFT wins over RIGHT
    ensures TurnCounterClockwise in acts <==> Left in held
    ensures TurnClockwise in acts <==> Right in held && Left !in held
    // neither group issues both of its calls
    ensures !(Accelerate in acts && ReverseTurn in acts)
    ensures !(TurnCounterClockwise in acts && TurnClockwise in acts)
    // at most one call per group, groups in order
    ensures forall i, j :: 0 <= i < j < |acts| ==> Phase(acts[i]) < Phase(acts[j])
    ensures |acts| <= 3
  {
    (if Up in down then [PlaySound] else [])
    + (if Up in held then [Accelerate] else if Down in held then [ReverseTurn] else [])
    + (if Left in held then [TurnCounterClockwise] else if Right in held then [TurnClockwise] else [])
  }
}
