/**
 What happens to the carousel over time: a sequence of clicks on its two
 buttons, interleaved with width notifications from the layout measurer.
 */
module Events {
  import opened Carousel

  datatype Event = LeftClick | RightClick | Measured(width: real)

  /** One event, handled to completion before the next one. */
  function Step(s: State, e: Event): State {
    match e
    case LeftClick => ShiftLeft(s)
    case RightClick => ShiftRight(s)
    case Measured(w) => Resize(s, w)
  }

  /** The state after handling the events in order. */
  function Run(s: State, es: seq<Event>): State
    decreases |es|
  {
    if |es| == 0 then s else Run(Step(s, es[0]), es[1..])
  }

  /** The events are all clicks: the container width never changes. */
  predicate ClicksOnly(es: seq<Event>) {
    forall i :: 0 <= i < |es| ==> !es[i].Measured?
  }

  /** `k` clicks on the right button. */
  function RightClicks(k: nat): (es: seq<Event>)
    ensures |es| == k && ClicksOnly(es)
    ensures forall i :: 0 <= i < k ==> es[i] == RightClick
  {
    seq(k, _ => RightClick)
  }

  /** `k` clicks on the left button. */
  function LeftClicks(k: nat): (es: seq<Event>)
    ensures |es| == k && ClicksOnly(es)
    ensures forall i :: 0 <= i < k ==> es[i] == LeftClick
  {
    seq(k, _ => LeftClick)
  }
}
