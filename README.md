# Guided-tour engine of the semantic-tag showcase, in Dafny

This project models the guided tour of the HTML5 semantic-layout tutorial
(`components/Tour.tsx`). The tour walks a fixed catalogue of steps. Each step
names a region of the page and the side its tooltip card prefers. The model
covers four parts:

- **Steps** (`steps.dfy`): the `TourStep` record of `types.ts` and the
  nine-step catalogue of `constants.ts`.
- **Geometry** (`geometry.dfy`): looking a region up by id and resolving its
  viewport rectangle into document coordinates with the scroll offsets
  (`updatePosition`). It also covers the highlight ring, which is the resolved
  box grown by 4 on every side.
- **Placement** (`placement.dfy`): `getTooltipStyle`. The card gets an anchor
  point 16 outside the chosen edge of the box, plus a translation by -100%,
  -50% or 0% of the card's own size. With no box, the card falls back to the
  centre of the viewport.
- **State machine** (`machine.dfy`, `tour.dfy`): the open flag (kept by
  `App.tsx`), `currentStep`, the stored `position` and the resize listener.
  `machine.dfy` gives each transition as a function on a `TourState` value:
  a handler together with the effect it sets off. `tour.dfy` holds the class
  `Tour`. Its methods overwrite those fields and are proved to move the
  object exactly as the matching function does.
- **View** (`view.dfy`): what an open tour draws. This is the step text, the
  ring, the card, one page marker per step, the disabled state of the
  previous control and the caption of the next control.

Coordinates are exact `real` numbers. The page is an input value (`Page`): a
map from region id to viewport rectangle, plus the two scroll offsets.

A `center` step's card is centred in the viewport only when no box was
resolved (`components/Tour.tsx:93`). With a box, it is anchored at the box's
centre in document coordinates (`components/Tour.tsx:170-176`).

## Model

| member | source | states |
|---|---|---|
| Steps.TourStepsRunnable | constants.ts:86-141 | The shipped catalogue has nine steps, so step 0 exists. It opens on `root` with a centred card and ends on `footer-block`. |
| Geometry.FindRegion | components/Tour.tsx:18-20 | The lookup finds a region exactly when the page has one with that id, and then returns that region's rectangle. |
| Geometry.Resolve | components/Tour.tsx:20-38 | The box exists exactly when the region was found. Moving it back by the scroll offsets gives the viewport rectangle again. |
| Geometry.ResolveOn | components/Tour.tsx:17-38 | Resolving an id on a page gives a box exactly when the page has that id. |
| Geometry.ResolveIgnoresScrolling | components/Tour.tsx:21-31 | The resolved box is in document coordinates: scrolling the page by any amount leaves every region's box unchanged. |
| Geometry.Highlight | components/Tour.tsx:78-86 | A ring is drawn iff there is a box. The ring contains the box with a margin of exactly 4 on each of the four sides. |
| Placement.TooltipStyleFor | components/Tour.tsx:142-178 | For every card size, the card lands 16 outside the matching edge and is centred on the other axis (`top`, `bottom`, `left`, `right`). For `center`, it is centred on the box. |
| Placement.CardStyle | components/Tour.tsx:93 | With no box, the card is fixed at 50%/50% of the viewport with translate(-50%,-50%), whatever the side. With a box, it is placed next to the box. |
| Placement.CardSitsOnSide | components/Tour.tsx:143-176 | With a box, the card sits on the step's side of it at any card size. |
| Placement.SideCardClearsHighlight | components/Tour.tsx:143-169 | On the four sides, the card overlaps neither the box nor the ring drawn around it, at any card size. |
| Placement.BottomExample | components/Tour.tsx:152-157 | Box (100,0,800,50) with `bottom` anchors at (166,400) with translate(-50%,0). |
| TourMachine.TargetBox | components/Tour.tsx:17-38 | Step `i`'s box is absent exactly when the page has no region with that step's id. |
| TourMachine.Opened | components/Tour.tsx:41-44 | Opening a closed tour shows step 0 with step 0's box and keeps the invariant (one listener). Opening an open tour changes nothing. |
| TourMachine.Closed | components/Tour.tsx:45-51 | After closing, the tour is closed, the index is 0 and no resize listener is left. The stored box is untouched. |
| TourMachine.Advanced | components/Tour.tsx:54-60 | The tour stays open iff it was not on the last step. If so, the index goes up by one and the new step's box is resolved. On the last step, next is exactly a close. |
| TourMachine.Retreated | components/Tour.tsx:62-66 | Step 0 is a no-op. Otherwise the index goes down by one and the new step's box is resolved. The tour stays open. |
| TourMachine.Resized | components/Tour.tsx:41-52 | A resize never changes the step or the open flag. While open, it re-resolves the current step. While closed, nothing happens because no listener is left. |
| TourMachine.Apply | components/Tour.tsx:41-68 | Every event keeps the invariant: index in range while open, 0 and no listener while closed, one listener while open. |
| TourMachine.Run | components/Tour.tsx:41-66 | Every run of events keeps the invariant. |
| TourMachine.RunConcat | components/Tour.tsx:41-66 | Running `a` then `b` is running `a + b`. |
| TourMachine.ReachableStates | components/Tour.tsx:41-66 | From the initial state, whatever happens: the index is in range while open and 0 while closed, and at most one resize listener is registered (none while closed). |
| TourMachine.ReopenStartsAtFirstStep | components/Tour.tsx:41-47 | After any history, closing and reopening shows step 0 with step 0's box. |
| TourMachine.NextThenPrev | components/Tour.tsx:54-66 | Before the last step, next then prev on an unchanged page gives back the same state. |
| TourMachine.PrevThenNext | components/Tour.tsx:54-66 | After the first step, prev then next on an unchanged page gives back the same state. |
| TourMachine.ResizeIdempotent | components/Tour.tsx:16-39 | Re-resolving twice against the same page gives the same state as once. |
| TourMachine.ResizesKeepStep | components/Tour.tsx:44 | Any number of resizes never moves the step or opens or closes the tour. A closed tour stays exactly as it was. |
| TourMachine.NextsWalkForward | components/Tour.tsx:54-57 | `k` clicks on next that stay within the catalogue advance the index by exactly `k`. |
| TourMachine.NextThroughEveryStepFinishes | components/Tour.tsx:54-59 | Opening and then clicking next once per step ends with the tour closed, at step 0, with no listener. |
| TourMachine.ThreeStepScenario | components/Tour.tsx:41-60 | With three steps: open, next, next shows step 2; one more next closes; reopening shows step 0. |
| TourMachine.CatalogueOpensOnRoot | constants.ts:87-92 | The shipped catalogue opens on `root` with a centred card and `root`'s box. |
| TourComponent.Tour.constructor | components/Tour.tsx:13-14 | A new tour is closed, at step 0, with no box and no listener. |
| TourComponent.Tour.UpdatePosition | components/Tour.tsx:16-39 | Stores the current step's resolved box, or nothing when its region is missing. |
| TourComponent.Tour.AttachEffect | components/Tour.tsx:42-44 | Resolves the current step and registers one more resize listener. |
| TourComponent.Tour.DetachEffect | components/Tour.tsx:49-51 | Removes one resize listener. |
| TourComponent.Tour.Open | components/Tour.tsx:41-44 | Moves the object as `Opened` does and keeps `Valid()`. |
| TourComponent.Tour.Close | components/Tour.tsx:45-51 | Moves the object as `Closed` does and keeps `Valid()`. |
| TourComponent.Tour.Next | components/Tour.tsx:54-60 | Moves the object as `Advanced` does and keeps `Valid()`. |
| TourComponent.Tour.Prev | components/Tour.tsx:62-66 | Moves the object as `Retreated` does and keeps `Valid()`. |
| TourComponent.Tour.Resize | components/Tour.tsx:44 | Moves the object as `Resized` does and keeps `Valid()`. |
| TourComponent.ThreeStepWalk | components/Tour.tsx:41-60 | The three-step walk-through on the object ends open at step 0. |
| TourView.PageMarkers | components/Tour.tsx:109-113 | There is one marker per step, and a marker is lit exactly at the current index. |
| TourView.ExactlyOneMarkerLit | components/Tour.tsx:109-113 | On a step of the catalogue, exactly one marker is lit: the current one. |
| TourView.PrevDisabled | components/Tour.tsx:120 | The previous control is disabled exactly on step 0. |
| TourView.PrevDisabledIffPrevIsNoOp | components/Tour.tsx:62-66 | On an open tour, the previous control is disabled exactly when clicking it would change nothing. |
| TourView.NextControl | components/Tour.tsx:129-130 | The caption is "Fine" iff the step is the last one. The chevron is shown iff the caption is "Avanti". |
| TourView.Render | components/Tour.tsx:68-135 | Nothing is drawn while closed. While open: the current step's text; the ring is `Highlight` of the stored box and the card is `CardStyle` of the box and the step's side; one marker per step, lit exactly at the current index, so exactly one is lit; prev disabled iff at step 0; "Fine" iff on the last step. |
| TourView.RenderedCardClearsRing | components/Tour.tsx:78-93 | While open, on the four sides the card never covers the ring. With no box, there is no ring and the card is viewport-centred. |

## Left out

- The DOM and browser calls are not modelled. The page is an input value (`Page`) instead of `document.getElementById` and `getBoundingClientRect`. The scroll offsets are part of that value; the fallback from `window.scrollY` to `documentElement.scrollTop` is not modelled.
- `scrollIntoView` is a side effect on the page and does not change the tour's state, so it is left out. `createPortal` is left out too.
- React scheduling is left out. Each handler and the effect runs it sets off form one atomic transition. In particular, the render that happens between reopening and the effect (which can still show the previous step's stale box) is not modelled.
- The resize listener is a count of registered listeners. Function identity, and the browser ignoring a duplicate registration, are not modelled.
- Floating-point coordinates are modelled as exact reals.
- CSS strings, Tailwind classes, the scrim's shadow and the transitions are left out. A transform is a pair of self-relative shifts, not a string.
- The `default` branch of `getTooltipStyle` cannot be reached with the five-valued side type. It is the same as `center`, so it is folded into `center`.
- Whether the catalogue's target ids exist in the rendered page is left to the `Page` input.
- `components/BoxModelDemo.tsx`, `components/SemanticBlock.tsx`, the theme toggle of `App.tsx`, `SEMANTIC_DATA`, `tailwind.config.js` and `vite.config.ts` are not part of this model. They are static presentation, clipboard I/O, timers and build configuration.
