# Testimonial carousel: the offset controller

The testimonial section shows a horizontal strip of cards. The strip can be
moved left and right with two buttons. This project models the logic behind
those buttons, which lives in `src/TestimonialSection/Testimonials.jsx`.

- **Stride.** Each card is 350 pixels wide with a 20-pixel margin, so one click
  moves the strip by `CardSize = 370` pixels.
- **State.** The controller holds one integer, the strip's `offset`, which is
  0 on mount. The model's `State` record also carries the measured container
  `width` and the item count `count`.
- **Buffer.** The buffer is the number of cards treated as visible. It is 3
  above 1024 pixels, 2 above 640 pixels, and 1 otherwise.
- **Guards.** The left button acts only when `offset < 0`. The right button
  acts only when `|offset| < 370 * (count - buffer)`.
- **Transitions.** A guarded-out click does nothing. Otherwise the left button
  adds one stride and the right button subtracts one.
- **Buttons.** Each button slides on screen (`"0%"`) when its guard holds. It
  slides off screen (`"-100%"` or `"100%"`) when it does not.

Modules:

- `Carousel` (`carousel.dfy`): constants, the state, the buffer, the guards,
  the two transitions, the resize notification and the button positions.
- `Events` (`events.dfy`): events (left click, right click, new width), and
  `Step`/`Run`, which handle a sequence of events one at a time.
- `CarouselProperties` (`properties.dfy`): the lemmas. They cover:
  - the bounds every run of clicks keeps;
  - the exact set of reachable offsets;
  - round trips between the two buttons;
  - what a change of container width preserves and what it can break;
  - the ten-item walk-through with a 1200-pixel container.

## Model

| member | source | states |
|---|---|---|
| `Carousel.Init` | src/TestimonialSection/Testimonials.jsx:21-29 | On mount (offset 0) the left guard is false, and the right guard holds exactly when there are more items than the buffer. |
| `Carousel.CanShiftLeft` | src/TestimonialSection/Testimonials.jsx:26 | The left guard, offset < 0. Its meaning is stated by `ShiftLeft` (no-op exactly when it fails) and `LeftButtonX`. |
| `Carousel.CanShiftRight` | src/TestimonialSection/Testimonials.jsx:28-29 | The right guard, abs(offset) < 370 * (count - buffer). It can hold only when count > buffer, and then it holds at every offset within one stride of 0. |
| `Carousel.Resize` | src/TestimonialSection/Testimonials.jsx:20-29 | A new measured width never changes the left guard. A resize that does not grow the buffer never disables the right guard, and one that does not shrink it never enables it. |
| `Carousel.Buffer` | src/TestimonialSection/Testimonials.jsx:14-24 | The buffer is always 1, 2 or 3. It is 3 exactly when width > 1024, 2 exactly when 640 < width <= 1024, and 1 exactly when width <= 640. |
| `Carousel.ShiftLeft` | src/TestimonialSection/Testimonials.jsx:26-36 | A left click is a no-op when offset >= 0 (in particular at 0). Otherwise it yields exactly offset + 370. Width and count never change. |
| `Carousel.ShiftRight` | src/TestimonialSection/Testimonials.jsx:28-43 | A right click is a no-op when abs(offset) >= 370 * (count - buffer). Otherwise it yields exactly offset - 370. Width and count never change. |
| `Carousel.LeftButtonX` | src/TestimonialSection/Testimonials.jsx:62 | The left button is on screen ("0%") iff offset < 0; otherwise it is at "-100%". |
| `Carousel.RightButtonX` | src/TestimonialSection/Testimonials.jsx:72 | The right button is on screen ("0%") iff a right click would change the state; otherwise it is at "100%". |
| `CarouselProperties.BufferMonotone` | src/TestimonialSection/Testimonials.jsx:23-24 | The buffer never decreases as the width grows. |
| `CarouselProperties.ShiftLeftKeepsBounded` | src/TestimonialSection/Testimonials.jsx:26-36 | A left click keeps the offset within [-370 * max(0, count - buffer), 0] and a multiple of 370. |
| `CarouselProperties.ShiftRightKeepsBounded` | src/TestimonialSection/Testimonials.jsx:28-43 | A right click keeps the offset within [-370 * max(0, count - buffer), 0] and a multiple of 370. |
| `CarouselProperties.ClicksKeepBounded` | src/TestimonialSection/Testimonials.jsx:26-43 | Any sequence of clicks from a bounded state ends in a bounded state. |
| `CarouselProperties.RunsFromInitAreBounded` | src/TestimonialSection/Testimonials.jsx:21-43 | For a fixed width, every sequence of clicks from mount keeps offset <= 0, offset % 370 == 0 and offset >= -370 * max(0, count - buffer). |
| `CarouselProperties.RightClicksAdvance` | src/TestimonialSection/Testimonials.jsx:38-43 | Right clicks within the bound each move the strip exactly one stride further. |
| `CarouselProperties.BoundedStatesAreReachable` | src/TestimonialSection/Testimonials.jsx:21-43 | Every bounded state is reached from mount by right clicks alone. With `RunsFromInitAreBounded` this makes the bounded states exactly the reachable ones. |
| `CarouselProperties.FewItemsNeverScroll` | src/TestimonialSection/Testimonials.jsx:28-41 | With no more items than the buffer, no sequence of clicks from 0 ever moves the offset. |
| `CarouselProperties.RoundTripRightLeft` | src/TestimonialSection/Testimonials.jsx:35-42 | From any aligned state (so from any reachable one), an effective right click followed by a left click restores the state. |
| `CarouselProperties.RoundTripLeftRight` | src/TestimonialSection/Testimonials.jsx:26-43 | From any bounded state, an effective left click followed by a right click restores the state. |
| `CarouselProperties.EventsKeepAligned` | src/TestimonialSection/Testimonials.jsx:20-43 | Even with resizes between clicks, the offset stays <= 0 and a multiple of 370. |
| `CarouselProperties.RunsFromInitAreAligned` | src/TestimonialSection/Testimonials.jsx:20-43 | From mount, any mix of clicks and resizes keeps offset <= 0 and offset % 370 == 0. |
| `CarouselProperties.StepKeepsFloor` | src/TestimonialSection/Testimonials.jsx:20-43 | Any single event, resizes included, keeps an aligned offset at or above -370 * max(0, count - 1). |
| `CarouselProperties.EventsKeepFloor` | src/TestimonialSection/Testimonials.jsx:20-43 | Any mix of clicks and resizes keeps an aligned offset at or above -370 * max(0, count - 1). |
| `CarouselProperties.RunsFromInitStayAboveFloor` | src/TestimonialSection/Testimonials.jsx:20-43 | From mount, whatever the events, -370 * max(0, count - 1) <= offset <= 0. |
| `CarouselProperties.ResizeKeepsBoundedUnlessBufferGrows` | src/TestimonialSection/Testimonials.jsx:23-29 | A resize that does not grow the buffer keeps a bounded state bounded. |
| `CarouselProperties.BufferGrowthExceedsBound` | src/TestimonialSection/Testimonials.jsx:23-43 | Growing the buffer can leave the offset below the new lower bound. Example: 10 items at width 600, 9 right clicks, then width 1200 gives -3330 < -2590. |
| `CarouselProperties.PastBoundOnlyLeft` | src/TestimonialSection/Testimonials.jsx:23-43 | Below the lower bound a right click is a no-op and a left click moves back one stride. |
| `CarouselProperties.LeftClicksReturnToStart` | src/TestimonialSection/Testimonials.jsx:31-36 | From k strides in, k left clicks bring the offset back to 0 whatever the width. |
| `CarouselProperties.ButtonsShowEffectiveClicks` | src/TestimonialSection/Testimonials.jsx:62-72 | Each button is on screen exactly when clicking it would change the offset. |
| `CarouselProperties.WideContainerWalkThrough` | src/TestimonialSection/Testimonials.jsx:9-43 | With 10 items at width 1200, 7 right clicks reach -2590, where the right button hides and further right clicks are no-ops. One left click then gives -2220 and shows the right button again. |

## Left out

- Rendering: the JSX markup, the `Card` component and all styled-components
  CSS are presentation only.
- Animation: the framer-motion interpolation of `x: offset` and of the button
  positions. The model keeps only the target values.
- Measurement: the `useMeasure` resize observer is I/O. Its reports become
  `Measured(width)` events, and the width on mount is a parameter of `Init`.
- Width values: the width is a `real` compared only with 640 and 1024. A
  non-numeric (NaN) width is not modelled.
- Testimonial data: the contents of `TestimonialData` are not part of this
  model. Only the item count is kept.
- React scheduling: the source reads its guard from the render that created
  the click handler, but applies the stride through a functional updater. The
  model treats each click as one atomic step in which the guard and the update
  read the same offset.
- Number width: JavaScript numbers are doubles. Whatever the clicks and
  resizes, offsets stay between -370 * (count - 1) and 0
  (`RunsFromInitStayAboveFloor`), far inside the exactly representable
  integers, so the model uses unbounded `int`.
