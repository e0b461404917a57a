/**
 The offset controller of the testimonial carousel.

 The carousel keeps one signed integer, the horizontal offset of its strip of
 cards, and moves it by one card stride per click. How far it may move to the
 right depends on how many cards fit in the measured container width (the
 buffer) and on how many items the strip holds.
 */
module Carousel {

  /** Width of one card in pixels. */
  const CardWidth: int := 350
  /** Gap between two cards in pixels. */
  const Margin: int := 20
  /** The stride: how far one click moves the strip. Definitions use this
      name; contracts write its value, 370, as a literal, so that each of them
      also pins what CardWidth + Margin evaluates to. */
  const CardSize: int := CardWidth + Margin

  /** Container widths at which one more card counts as visible. */
  const BreakpointSm: real := 640.0
  const BreakpointLg: real := 1024.0

  function Abs(x: int): nat {
    if x < 0 then -x else x
  }

  function Max(a: int, b: int): int {
    if a < b then b else a
  }

  /** A snapshot of the widget: the scroll offset, the last measured container
      width and the (fixed) number of items on the strip. */
  datatype State = State(offset: int, width: real, count: nat)

  /** The state right after mounting: nothing scrolled yet. */
  function Init(count: nat, width: real): (s: State)
    ensures !CanShiftLeft(s)
    ensures CanShiftRight(s) <==> count > Buffer(width)
  {
    State(0, width, count)
  }

  /** Number of cards treated as visible for a container of the given width. */
  function Buffer(width: real): (b: int)
    ensures 1 <= b <= 3
    ensures b == 3 <==> width > 1024.0
    ensures b == 2 <==> 640.0 < width <= 1024.0
    ensures b == 1 <==> width <= 640.0
  {
    if width > BreakpointLg then 3 else if width > BreakpointSm then 2 else 1
  }

  /** Guard of the left button: the strip has been moved away from its start. */
  predicate CanShiftLeft(s: State) {
    s.offset < 0
  }

  /** The farthest distance the right guard lets the strip travel: one stride
      per item beyond the buffer (negative when the buffer exceeds the items). */
  function RightLimit(s: State): int {
    CardSize * (s.count - Buffer(s.width))
  }

  /** Guard of the right button. It can only hold when there are more items
      than the buffer, and then it holds for a whole stride beyond the start. */
  predicate CanShiftRight(s: State)
    ensures CanShiftRight(s) ==> s.count > Buffer(s.width)
    ensures s.count > Buffer(s.width) && -370 < s.offset < 370 ==> CanShiftRight(s)
  {
    Abs(s.offset) < RightLimit(s)
  }

  /** Click on the left button: ignored unless the strip is left of its start,
      otherwise the strip moves back by one stride. */
  function ShiftLeft(s: State): (t: State)
    ensures t.width == s.width && t.count == s.count
    ensures s.offset >= 0 ==> t == s
    ensures s.offset < 0 ==> t.offset == s.offset + 370
  {
    if !CanShiftLeft(s) then s else s.(offset := s.offset + CardSize)
  }

  /** Click on the right button: ignored once the offset's magnitude reaches
      one stride per item beyond the buffer, otherwise moves on by one stride. */
  function ShiftRight(s: State): (t: State)
    ensures t.width == s.width && t.count == s.count
    ensures (s.offset <= -370 * (s.count - Buffer(s.width))
             || s.offset >= 370 * (s.count - Buffer(s.width))) ==> t == s
    ensures -370 * (s.count - Buffer(s.width)) < s.offset < 370 * (s.count - Buffer(s.width))
            ==> t.offset == s.offset - 370
  {
    if !CanShiftRight(s) then s else s.(offset := s.offset - CardSize)
  }

  /** A new container width reported by the layout measurer: only the width
      changes, so the buffer and the right guard are recomputed from it. */
  function Resize(s: State, width: real): (t: State)
    ensures CanShiftLeft(t) == CanShiftLeft(s)
    ensures Buffer(width) <= Buffer(s.width) && CanShiftRight(s) ==> CanShiftRight(t)
    ensures Buffer(width) >= Buffer(s.width) && CanShiftRight(t) ==> CanShiftRight(s)
  {
    s.(width := width)
  }

  /** Horizontal position of the left button: on screen, or pushed fully out
      to the left. */
  function LeftButtonX(s: State): (x: string)
    ensures x == "0%" <==> s.offset < 0
    ensures x != "0%" ==> x == "-100%"
  {
    if CanShiftLeft(s) then "0%" else "-100%"
  }

  /** Horizontal position of the right button: on screen, or pushed fully out
      to the right. */
  function RightButtonX(s: State): (x: string)
    ensures x == "0%" <==> ShiftRight(s) != s
    ensures x != "0%" ==> x == "100%"
  {
    if CanShiftRight(s) then "0%" else "100%"
  }
}
