# Globe, booking flow and carousel: a Dafny model

This project models the three components of the portfolio prototype that hold
discrete logic.

- **The LHW globe** (`components/LHWVisualization.tsx`) lays 24 hotel cards
  (twelve hotels, each listed twice) on a Fibonacci sphere of radius 450. An
  idle animation frame turns the sphere by 0.002 rad of yaw. Pointer pans turn
  it by 0.005 rad per pixel. Every render rotates each base position, gives it
  an opacity and a front/back flag, and sorts the cards farthest first for
  painter's-algorithm layering. A click on a card whose rotated depth is below
  100 opens that hotel's detail overlay, and the overlay's close actions
  dismiss it.
- **The quest booking flow** (`components/QuestBooking.tsx`) is a three-step
  machine: choose a path, choose a date, confirm. The state is a step number
  (0, 1, 2) and the selected path id, and the state decides which panel is on
  screen.
- **The juice carousel** (`components/ChromaticOrdering.tsx`) holds an active
  index that the arrow buttons move cyclically over the four juices, and a
  sweetness slider from 0 to 100 that also picks an index in proportion.

The host's `Math.PI`, `Math.sqrt`, `Math.cos` and `Math.sin` enter as opaque
values (`SphereLayout.MathLib`). Nothing in the model computes them. JavaScript
numbers are `real`, or `int` where they are indices. The model follows the
code as written:

- angles are never wrapped;
- a pan turns the globe even while a hotel is selected;
- the layout divides by N - 1, so it requires N >= 2 (N is 24 here);
- `%` is JavaScript's truncating remainder (`ChromaticOrdering.JsRem`);
- opacity is `max(0.1, (z + 450) / 900)`, which reaches its floor at
  z = -360 rather than at the back of the sphere;
- cards accept pointer events only when z < 0 (line 273), but the click
  handler tests z < 100 (line 277), and the model follows the handler.

Modules: `Optional` (nullable values), `Hotels` and `Juices` (the constant
data), `SphereLayout`, `Projection`, `DepthSort` and `GlobeView` (the globe),
`QuestBooking` and `ChromaticOrdering`. State that the components update in
place is a class in each case: `GlobeView.Globe`, `QuestBooking.Booking` and
`ChromaticOrdering.Carousel`. The layout, projection and sort are functions.

## Model

| member | source | states |
|---|---|---|
| Hotels.HotelsDoubled | components/LHWVisualization.tsx:114 | the globe's list has 24 entries: the 12 base hotels twice, entry i + 12 being entry i |
| SphereLayout.NormY | components/LHWVisualization.tsx:166 | the normalised height is 1 for the first item, -1 for the last, and within [-1, 1] for every item |
| SphereLayout.GoldenAngle | components/LHWVisualization.tsx:163 | the angle increment pi * (3 - sqrt 5) lies between 2.39 and 2.41 radians (about 137.5 degrees) whenever the host's pi and sqrt 5 are accurate to two and three decimals |
| SphereLayout.BasePos | components/LHWVisualization.tsx:165-176 | a base position's height lies within [-450, 450], is +450 for the first item and -450 for the last |
| SphereLayout.Layout | components/LHWVisualization.tsx:162-178 | the layout has exactly one item per hotel, in the hotels' order |
| SphereLayout.NormYRange | components/LHWVisualization.tsx:166 | normalised height is 1 at the first index, -1 at the last, and within [-1, 1] in between |
| SphereLayout.NormYStrictlyDecreasing | components/LHWVisualization.tsx:166 | normalised height strictly decreases as the index grows |
| SphereLayout.LayoutSpread | components/LHWVisualization.tsx:165-176 | base heights run from +450 to -450 and strictly decrease, so no two base positions coincide |
| SphereLayout.HotelsLayout | components/LHWVisualization.tsx:114-118 | the 24 laid-out items repeat hotel i at i + 12, and each such pair sits at distinct positions |
| Projection.Alpha | components/LHWVisualization.tsx:200 | opacity is never below 0.1, never below the linear depth map, and equals one of the two |
| Projection.RotateBy | components/LHWVisualization.tsx:183-195 | the yaw-then-pitch rotation keeps the distance from the centre whenever each cosine/sine pair lies on the unit circle, and is the identity for cos = 1, sin = 0 |
| Projection.Rotate | components/LHWVisualization.tsx:183-195 | rotating a base position by the orientation keeps it on its sphere whenever the host's cos and sin satisfy cos^2 + sin^2 = 1 at both angles |
| Projection.ZIndex | components/LHWVisualization.tsx:267 | the stacking order is the largest integer not above 1000 - z |
| Projection.ProjectItem | components/LHWVisualization.tsx:188-211 | a projected card keeps its hotel, base position and layout index; its x, y, z are the rotated base position; its opacity is the depth opacity of that z, so at least 0.1; it is front-facing exactly when its rotated z is below 100 |
| Projection.ProjectEach | components/LHWVisualization.tsx:188-211 | the map step projects every item once, in layout order, with its own index |
| Projection.RotateIdentity | components/LHWVisualization.tsx:183-195 | with cos 0 = 1 and sin 0 = 0, the zero orientation leaves every base position unchanged |
| Projection.NegatedOrientationNotInverse | components/LHWVisualization.tsx:183-195 | the yaw-then-pitch rotation is not undone by the negated orientation: at quarter turns (1, 0, 0) goes to (0, -1, 0) and back to (0, 0, 1) |
| Projection.AlphaMonotone | components/LHWVisualization.tsx:200 | opacity never decreases as z grows, and from z = -360 on it is (z + 450) / 900 |
| Projection.ZIndexAntitone | components/LHWVisualization.tsx:267 | a nearer card (smaller z) never gets a lower stacking order floor(1000 - z) |
| DepthSort.InsertByDepth | components/LHWVisualization.tsx:212 | inserting a card adds exactly that card to the list |
| DepthSort.SortByDepth | components/LHWVisualization.tsx:212 | the depth sort returns a permutation of its input |
| DepthSort.GetProjectedItems | components/LHWVisualization.tsx:181-213 | the rendered list has one card per laid-out item, is a permutation of the projected layout, and is in painter's order (farthest first, ties in layout order) |
| DepthSort.InsertOrdered | components/LHWVisualization.tsx:212 | inserting a card with a smaller layout index into an ordered list keeps it ordered, farthest first with ties in layout order |
| DepthSort.SortOrdered | components/LHWVisualization.tsx:212 | sorting cards whose layout indices ascend yields the farthest-first, tie-stable order |
| DepthSort.OrderedUnique | components/LHWVisualization.tsx:212 | two ordered lists holding the same cards are equal, so every stable sort by the comparator gives this list |
| DepthSort.PainterOrder | components/LHWVisualization.tsx:181-213 | the projected list is a permutation of the projected layout, z never increases along it, the stacking order never decreases, equal depths keep layout order, and it is the only such list |
| DepthSort.PainterContents | components/LHWVisualization.tsx:188-212 | each projected card is the projection of the layout item its index names, and every layout item appears |
| GlobeView.IdleTickEffect | components/LHWVisualization.tsx:134-139 | an idle frame with no drag and no selection adds exactly 0.002 to the yaw and keeps the pitch; any other frame changes nothing |
| GlobeView.IdleTick | components/LHWVisualization.tsx:134-139 | a frame never changes the pitch, and changes the orientation exactly when there is no drag and no selection |
| GlobeView.Ticks | components/LHWVisualization.tsx:132-144 | consecutive frames never change the pitch and advance the yaw by between 0 and n * 0.002 |
| GlobeView.Drag | components/LHWVisualization.tsx:152-157 | a pan changes the pitch exactly when the vertical delta is non-zero and the yaw exactly when the horizontal delta is non-zero; a pan to the right lowers the yaw |
| GlobeView.ClickSelect | components/LHWVisualization.tsx:277 | a click either keeps the selection or selects the card's hotel; it changes the selection only for a card with z below 100, and never clears it |
| GlobeView.TicksIdle | components/LHWVisualization.tsx:132-144 | n idle frames add exactly n * 0.002 to the yaw, with no wrap-around |
| GlobeView.TicksPaused | components/LHWVisualization.tsx:134 | while dragging or while a hotel is selected, any number of frames leaves the orientation unchanged |
| GlobeView.DragHundredPixels | components/LHWVisualization.tsx:152-157 | a pan of (100, 0) lowers the yaw by exactly 0.5 and leaves the pitch alone |
| GlobeView.DragComposes | components/LHWVisualization.tsx:152-157 | two pans equal one pan by the summed delta; a pan followed by its negation returns to the start |
| GlobeView.ClickGate | components/LHWVisualization.tsx:277 | clicking a back-facing card never changes the selection; clicking a front-facing card selects its hotel |
| GlobeView.SelectPausesDismissResumes | components/LHWVisualization.tsx:330-340 | after a front card is selected, an idle frame leaves the orientation alone; after dismissal, it advances the yaw again |
| GlobeView.SelectThenDismiss | components/LHWVisualization.tsx:277-340 | clicking a front card on an idle globe, a frame, dismissing, and another frame: the selection ends empty, and the yaw has advanced by exactly one step, from the frame after dismissal |
| GlobeView.Globe.constructor | components/LHWVisualization.tsx:121-129 | on mount, the hotels are laid out, the orientation is zero, there is no drag and no selection |
| GlobeView.Globe.ProjectedItems | components/LHWVisualization.tsx:215 | the rendered list holds one card per laid-out item, is a permutation of the projected layout and is in painter's order |
| GlobeView.Globe.Animate | components/LHWVisualization.tsx:132-144 | a frame applies the idle tick under the current flags, records the timestamp and changes nothing else |
| GlobeView.Globe.HandleDrag | components/LHWVisualization.tsx:152-159 | a pan applies the linear drag update to the orientation, whatever the selection, and changes nothing else |
| GlobeView.Globe.PanStart | components/LHWVisualization.tsx:242 | pan start sets the drag flag and changes nothing else |
| GlobeView.Globe.PanEnd | components/LHWVisualization.tsx:243 | pan end clears the drag flag and changes nothing else |
| GlobeView.Globe.Click | components/LHWVisualization.tsx:277 | a click selects the card's hotel when its z is below 100; otherwise the selection is unchanged |
| GlobeView.Globe.Dismiss | components/LHWVisualization.tsx:340 | dismissal clears the selection and changes nothing else |
| QuestBooking.FindPath | components/QuestBooking.tsx:32 | the lookup returns a listed path with the requested id, the first such path; it returns nothing for a null id or an id no path has |
| QuestBooking.ValidState | components/QuestBooking.tsx:29-46 | in every reachable state a path is selected exactly on the date and confirmation steps, and nothing on the path step |
| QuestBooking.ShowsPathCards | components/QuestBooking.tsx:53 | the path cards are shown only in states where nothing is selected |
| QuestBooking.ShowsBookingFlow | components/QuestBooking.tsx:89 | the booking flow is shown only when the selection is one of the two path ids, and never together with the path cards |
| QuestBooking.ShowsDateGrid | components/QuestBooking.tsx:121 | the date grid is shown only with a selection and never together with the path cards |
| QuestBooking.ShowsConfirmation | components/QuestBooking.tsx:152 | the confirmation is shown only with a selection, never with the path cards and never with the date grid |
| QuestBooking.SelectedPathUnique | components/QuestBooking.tsx:11-32 | the two path ids are distinct, so the lookup returns the unique path with the id, and nothing for any other id |
| QuestBooking.ExactlyOnePanel | components/QuestBooking.tsx:53-152 | in a valid state (which includes that a selection names a known path): the path cards show only on step 0, the date grid only on step 1, the confirmation only on step 2, and the booking flow exactly when the cards do not |
| QuestBooking.Booking.constructor | components/QuestBooking.tsx:29-30 | the flow starts on the path step with nothing selected, which satisfies the invariant |
| QuestBooking.Booking.SelectedPath | components/QuestBooking.tsx:32 | the selected path, when found, is a listed path carrying the selected id; in every valid state past the first step it is found |
| QuestBooking.Booking.HandleSelect | components/QuestBooking.tsx:34-37 | selecting a path stores its id and moves to the date step; the step invariant always holds afterwards, and the whole invariant (a selection names a known path) when the id is a listed path's |
| QuestBooking.Booking.HandleBack | components/QuestBooking.tsx:39-46 | back goes from date to path and clears the selection; from confirm to date and keeps it; does nothing on the path step; preserves the invariant |
| QuestBooking.Booking.ClickDay | components/QuestBooking.tsx:134-138 | any of the 31 day buttons moves to the confirmation and keeps the selection; the invariant is preserved from the date step, the only step that shows the grid |
| QuestBooking.ClickPathCard | components/QuestBooking.tsx:60-65 | clicking path card k moves to the date step with that card's path selected and found, keeps the invariant, and shows the date grid and not the cards |
| QuestBooking.ForwardThenBack | components/QuestBooking.tsx:34-46 | select a path, pick a day, then go back twice: back undoes each step forward, ending on the empty path step |
| ChromaticOrdering.JsRem | components/ChromaticOrdering.tsx:17-18 | JavaScript's remainder lies in [0, abs b) for a non-negative dividend and in (-abs b, 0] for a non-positive one, and a = q * b + r for the quotient q truncated toward zero; these determine it |
| ChromaticOrdering.JsRemNegative | components/ChromaticOrdering.tsx:17-18 | the remainder keeps a negative dividend's sign (-1 % 4 is -1), which is why the previous button adds the length before taking it (3 for index 0 of 4) |
| ChromaticOrdering.NextIndex | components/ChromaticOrdering.tsx:17 | next keeps a non-negative index within [0, len) |
| ChromaticOrdering.PrevIndex | components/ChromaticOrdering.tsx:18 | previous keeps a non-negative index within [0, len) |
| ChromaticOrdering.ActiveSlot | components/ChromaticOrdering.tsx:15 | the modded slot of a non-negative index is within [0, len), and is the index itself when already in range |
| ChromaticOrdering.PrevOfFirst | components/ChromaticOrdering.tsx:18 | previous sends index 0 to len - 1 |
| ChromaticOrdering.StepIndices | components/ChromaticOrdering.tsx:17-18 | on an in-range index, next adds one and wraps len - 1 to 0, and previous subtracts one and wraps 0 to len - 1 |
| ChromaticOrdering.NextPrevInverse | components/ChromaticOrdering.tsx:17-18 | previous after next, and next after previous, return the original index |
| ChromaticOrdering.NextIterShift | components/ChromaticOrdering.tsx:17 | k presses of next, for k up to len, move the index forward by k with at most one wrap |
| ChromaticOrdering.FullCycle | components/ChromaticOrdering.tsx:17 | len presses of next return to the starting index |
| ChromaticOrdering.NextIter | components/ChromaticOrdering.tsx:17 | any positive number of next presses from a non-negative index lands within [0, len) |
| ChromaticOrdering.SliderIndexDiv | components/ChromaticOrdering.tsx:179 | on integer slider values, floor(v / 100 * (len - 1)) equals the integer quotient v * (len - 1) / 100 |
| ChromaticOrdering.SliderIndex | components/ChromaticOrdering.tsx:179 | a slider value in [0, 100] picks an index within [0, len - 1] |
| ChromaticOrdering.SliderIndexRange | components/ChromaticOrdering.tsx:179 | the slider index lies in [0, len - 1], is 0 at v = 0 and len - 1 at v = 100, and never decreases as v grows |
| ChromaticOrdering.SliderOverJuices | components/ChromaticOrdering.tsx:179 | with the four juices, values 0-33 pick the first, 34-66 the second, 67-99 the third, and only 100 the last |
| ChromaticOrdering.Carousel.constructor | components/ChromaticOrdering.tsx:7-8 | the carousel starts at sweetness 50 on the first juice |
| ChromaticOrdering.Carousel.ActiveJuice | components/ChromaticOrdering.tsx:10-15 | the active juice is always one of the list, and is the one at the index when the index is in range |
| ChromaticOrdering.Carousel.Next | components/ChromaticOrdering.tsx:17 | the next button applies the cyclic successor, keeps the index in range, and changes nothing else |
| ChromaticOrdering.Carousel.Prev | components/ChromaticOrdering.tsx:18 | the previous button applies the cyclic predecessor, keeps the index in range, and changes nothing else |
| ChromaticOrdering.Carousel.SliderChange | components/ChromaticOrdering.tsx:177-181 | a slider change stores v as the sweetness and the slider index as the active index, whether or not the guarded write happens |

## Left out

- Trigonometry and square roots are opaque values. The model makes no claim
  about the x and z of a base position beyond the formula, and none about its
  distance from the centre; the rotation keeps that distance only under the
  stated hypothesis cos^2 + sin^2 = 1 on the host's values.
- The perspective scale `1000 / (1000 + z)` (line 199) is a real division
  that the model does not compute. It is not a field of `Projection.Projected`.
- The compass readout (line 313) rounds the yaw in degrees. It is display
  only and is not modelled.
- There is no inverse-rotation property to model: the projection always
  applies yaw then pitch, so the negated orientation does not undo an
  orientation. At yaw = pitch = 90 degrees (cos 0, sin 1), (1, 0, 0) goes to
  (0, -1, 0), and the negated angles (cos 0, sin -1) send that to (0, 0, 1),
  not back to (1, 0, 0) (`Projection.NegatedOrientationNotInverse`).
- Floating-point rounding is not modelled; numbers are exact reals. In
  particular, the accumulated 0.002 steps are exact in the model. For the
  slider with four juices, 3v/100 is an integer only at v = 0 and v = 100,
  where the floating-point product is exact.
- Frame scheduling is not modelled: the `requestAnimationFrame` /
  `cancelAnimationFrame` registration in the effect (lines 146-149) and the
  re-registration when the flags change. `Globe.Animate` is a single frame,
  and `GlobeView.Ticks` is a run of frames with unchanged flags.
- React's asynchronous state batching is not modelled: each handler's state
  updates take effect at once.
- The `pointerEvents: z < 0` style (line 273) is rendering and is not
  modelled; only the click handler's own test is.
- Framer-motion animations, hover effects, JSX markup, styling and images
  are not modelled in any component.
- components/InfiniteDiscovery.tsx and App.tsx are not part of this model.
  The first is scroll measurement, random particles and scroll-driven
  transforms; the second is tab routing.
- GlobeView.Globe.ProjectedItems: the contract gives the length, the
  permutation and the painter's order (ties in layout order); uniqueness and the
  per-card contents are stated by `DepthSort.PainterOrder` and
  `DepthSort.PainterContents` about the function it returns.
