# Zema Vinyl Lounge scroll-scrub controller, modelled in Dafny

The landing page's script (`assets/js/main.js`) pins the page at the top
and turns wheel and touch input into playback of a 15-second hero video.
Input accumulates into a virtual scroll offset. Each animation frame eases
the video's time 30% of the way toward the time that offset asks for and
snaps it to a whole frame at 24 fps. Once the offset reaches 3000 virtual
pixels, the page unlocks for good and scrolls normally. A pair of pager
buttons moves between sections. "Next" pressed while the page is still
locked skips the scrub straight to its end.

The project models that controller.

- `scrub_math.dfy` (module `ScrubMath`) holds the constants (24 fps, frame
  360, 15 s, 3000 px, factors 0.6 and 0.3) and the arithmetic: clamped
  progress, target time, one easing step, and the round-to-frame snap.
  `Math.round(x)` is `Floor(x + 1/2)`. JavaScript numbers are `real`.
- `pager.dfy` (module `Pager`) is the pure part: the indices the previous
  and next buttons scroll to, computed from the sections' bounding boxes.
- `scrub_model.dfy` (module `ScrubModel`) is the controller as a state
  machine over values.
  - Each event handler is a transition function. It returns the new state
    and the side effects it asks the browser for: request an animation
    frame, `preventDefault`, seek the video, `scrollTo(0, 0)`,
    `scrollIntoView(i)`.
  - `Step` dispatches one event and `Run` folds a history of events.
- `scrub_properties.dfy` (module `ScrubProperties`) proves what holds over
  every history:
  - the invariant;
  - the lock is one-way;
  - the gate only opens;
  - input is ignored before the video is ready;
  - the preference gate makes everything inert;
  - every seek lands on a whole frame;
  - animation-frame requests coalesce.
- `scrub_controller.dfy` (module `ScrubController`) is the script's shared
  state as a class. Its fields are `virtualScroll`, `scrollLocked`,
  `interactionBlocked`, `ticking`, `currentTime` and `lastTouchY`, and there
  is one method per handler. Each method updates the fields in place, as
  the script does. Each is proved to produce exactly the state and effects
  of the matching transition function, and to keep the invariant.

Modelling choices:

- The wheel, touchstart and touchmove listeners are attached by
  `setupScrubbing`. That runs in the `canplaythrough` listener, at the
  moment `interactionBlocked` becomes false. So in the model, "the listener
  exists" is the same as "the gate is open". That is why touchstart, which
  has no gate test of its own, only acts once the gate is open.
- The animation-frame callback runs only after a request. `ticking` is true
  exactly while a request is outstanding. So in `Step`, an `AnimationFrame` event with
  `ticking` false is a no-op. The class's `UpdateScrub` has no such test,
  just like `updateScrub`.
- The reduced-motion / save-data check makes the script return before it
  registers anything. It is modelled as an `inert` flag on which every
  handler is a no-op.
- The video element's own playback position is an input of the
  animation-frame tick. The section bounding boxes are an input of the
  button handlers.
- The offset has no upper clamp. Wheel and touch input can carry it past
  3000 before the next frame runs. Only the progress derived from it is
  clamped to [0, 1]. The model follows the code here.
- The `canplaythrough` listener is registered with `once`. A second ready
  signal therefore does nothing.

An observation the proofs make precise (`FastUnlockFreezesEarlyFrame`,
`UnlockIsPermanent`):

- The comment at `assets/js/main.js:95` says the page unlocks "when we
  reach frame 360". But the test is on the scroll offset, not on the video.
- One wheel burst to the end of the range followed by a single frame
  unlocks the page with the eased time at 4.5 s (frame 108).
- Unlocked ticks no longer ease, so the video stays at that frame.
- The next button's skip also leaves the video time where it was.

The model follows the code here. It is recorded as an observation, not as
a defect, because the code's intent is not evident.

## Model

| member | source | states |
|---|---|---|
| `ScrubMath.Accumulate` | assets/js/main.js:114 | the accumulated offset is never negative, is at least offset + delta, and is either offset + delta or 0 |
| `ScrubMath.Round` | assets/js/main.js:88 | `Math.round` gives the integer k with k - 1/2 <= x < k + 1/2 |
| `ScrubMath.Progress` | assets/js/main.js:80 | progress lies in [0, 1]; it is 0 exactly when the offset is <= 0 and 1 exactly when the offset is >= 3000; in between it is offset / 3000 |
| `ScrubMath.TargetTime` | assets/js/main.js:80-81 | the target time lies in [0, 15]; it is 0 exactly for offsets <= 0 and 15 exactly for offsets >= 3000; in between it is offset · 15 / 3000 (offset / 200 s) |
| `ScrubMath.Ease` | assets/js/main.js:84-85 | one easing step lands between the current and the target time and leaves 70% of the distance to the target |
| `ScrubMath.SnapFrame` | assets/js/main.js:88 | the frame number k is `Math.round(24 · t)` with halves rounded up: k - 1/2 <= 24 · t < k + 1/2; it lies in [0, 360] when the time lies in [0, 15] |
| `ScrubMath.SnappedTime` | assets/js/main.js:88-89 | the snapped time r is a whole frame (24 · r is an integer) with t - 1/48 < r <= t + 1/48, so an eased time exactly between two frames snaps to the later one; for an eased time in the clip it is k/24 with k in [0, 360] |
| `ScrubMath.EaseStaysInClip` | assets/js/main.js:80-85 | easing from a time in [0, 15] toward the target of any offset stays in [0, 15] |
| `Pager.PrevTargetsFrom` | assets/js/main.js:165-169 | from section i on: t is a target iff section t + 1 (index >= i) straddles the viewport top; targets are strictly increasing |
| `Pager.NextTargetsFrom` | assets/js/main.js:183-187 | from section i on: t is a target iff section t - 1 (index >= i, not the last) straddles the viewport top; targets are strictly increasing |
| `Pager.PrevTargets` | assets/js/main.js:165-169 | previous scrolls to exactly {idx - 1 : section idx straddles the viewport top, idx > 0}, in forEach order |
| `Pager.NextTargets` | assets/js/main.js:183-187 | next scrolls to exactly {idx + 1 : section idx straddles the viewport top, idx < n - 1}, in forEach order |
| `Pager.TargetsInBounds` | assets/js/main.js:167 | every target is a valid section index, and a page with at most one section has no targets |
| `Pager.PrevOfSingleStraddler` | assets/js/main.js:165-169 | when exactly section idx straddles the top, previous scrolls only to idx - 1, or nowhere at the first section |
| `Pager.NextOfSingleStraddler` | assets/js/main.js:183-187 | when exactly section idx straddles the top, next scrolls only to idx + 1, or nowhere at the last section |
| `ScrubModel.OnReady` | assets/js/main.js:51-64 | the ready signal opens the gate unless the preference gate made the script inert; nothing else changes; the invariant is kept |
| `ScrubModel.OnWheel` | assets/js/main.js:108-122 | closed gate or unlocked: nothing changes and nothing is emitted. Otherwise: offset becomes max(0, offset + 0.6·deltaY) (it is >= 0, >= offset + 0.6·deltaY, and one of the two); `preventDefault` is emitted; a frame is requested iff none is outstanding; `ticking` ends true; nothing else changes |
| `ScrubModel.OnTouchStart` | assets/js/main.js:130-133 | with the listeners attached, the finger position is recorded; otherwise nothing changes |
| `ScrubModel.OnTouchMove` | assets/js/main.js:135-149 | closed gate or unlocked: nothing changes, not even the last finger position. Otherwise: offset becomes max(0, offset + (lastY - y)) (it is >= 0, >= offset + (lastY - y), and one of the two); lastY becomes y; a frame is requested iff none is outstanding |
| `ScrubModel.Tick` | assets/js/main.js:77-106 | `ticking` ends false; unlocked, that is all. Locked: it unlocks iff offset >= 3000, pins the page iff 0 < offset < 3000, and eases the time 30% toward the target. It seeks to the snapped time iff the video is more than 1/48 s away, and emits nothing else. Offset, gate and finger position are untouched; the invariant is kept |
| `ScrubModel.OnPrev` | assets/js/main.js:163-171 | every emitted scroll goes to the section before a straddling one, every straddling section after the first yields one, and the scrolls are issued once each in section order; inert: nothing |
| `ScrubModel.OnNext` | assets/js/main.js:175-189 | locked: the offset becomes 3000, the lock is released and no section is scrolled to, whether or not the gate is open. Unlocked: state unchanged, and scrolls go exactly to the sections after straddling ones, once each in section order |
| `ScrubModel.PrevScrollsReachNeighbours` | assets/js/main.js:165-169 | the previous button's scroll effects go exactly to the predecessors of the straddling sections, in strictly increasing order |
| `ScrubModel.NextScrollsReachNeighbours` | assets/js/main.js:183-187 | the next button's scroll effects go exactly to the successors of the straddling sections, in strictly increasing order |
| `ScrubProperties.StepKeepsInv` | assets/js/main.js:77-149 | every handler keeps the invariant: offset >= 0, eased time in [0, 15], unlocked only at offset >= 3000, no frame outstanding before the gate opens |
| `ScrubProperties.RunKeepsInv` | assets/js/main.js:15-23 | the invariant holds after any history of events |
| `ScrubProperties.ReachableStatesKeepInv` | assets/js/main.js:16-18 | from the initial values, offset >= 0 and eased time in [0, 15] after any history, and an unlocked controller has offset >= 3000 |
| `ScrubProperties.UnlockIsPermanent` | assets/js/main.js:96-97 | once unlocked, never locked again; offset and eased time freeze; only pager scrolls are emitted (no seek, pin or frame request) |
| `ScrubProperties.OnlyReadyOpensGate` | assets/js/main.js:54 | the only event that changes the gate is the ready signal, and it only opens it |
| `ScrubProperties.GateNeverCloses` | assets/js/main.js:18 | once open, the gate stays open over any history |
| `ScrubProperties.BlockedInputIsIgnored` | assets/js/main.js:109 | while the gate is closed, wheel, touch and frame events change nothing, and the only effects are the previous button's scrolls |
| `ScrubProperties.InertIgnoresEverything` | assets/js/main.js:6-11 | with reduced motion or data saving requested, no history changes anything or emits anything |
| `ScrubProperties.TickSeeksWholeFrames` | assets/js/main.js:88-93 | a seek emitted by a tick is to a whole frame k/24 with 0 <= k <= 360 |
| `ScrubProperties.SeeksAreWholeFrames` | assets/js/main.js:88-93 | every seek in any history is to a whole frame of the clip |
| `ScrubProperties.StepRequests` | assets/js/main.js:105-120 | requests made by one event plus the request outstanding before it equal the callbacks it delivers plus the request outstanding after it: a frame is requested only when none is outstanding and is then marked outstanding, and a delivered frame clears it |
| `ScrubProperties.RequestsCoalesce` | assets/js/main.js:144-147 | over any history, frame requests plus the request outstanding at the start equal the callbacks actually run plus the request outstanding at the end; so requests never exceed delivered callbacks plus one |
| `ScrubProperties.WheelToEndUnlocks` | assets/js/main.js:96-97 | wheeling 5000 px (3000 after damping) on a ready page and one frame: offset 3000, target time 15, unlocked |
| `ScrubProperties.NextSkipsToEnd` | assets/js/main.js:176-179 | next at offset 500 while locked: offset 3000, unlocked, no section scroll |
| `ScrubProperties.FastUnlockFreezesEarlyFrame` | assets/js/main.js:95-97 | after a one-burst unlock the eased time is 4.5 s (frame 108), it stays there through later input, and the only seek is to 4.5 s |
| `ScrubController.Controller.constructor` | assets/js/main.js:15-18 | the preference gate and the initial values: locked, offset 0, gate closed, no frame outstanding, time 0 |
| `ScrubController.Controller.HandleReady` | assets/js/main.js:51-64 | updates the fields exactly as `OnReady` and keeps the invariant |
| `ScrubController.Controller.HandleWheel` | assets/js/main.js:108-122 | updates the fields and emits exactly as `OnWheel`, keeping the invariant |
| `ScrubController.Controller.HandleTouchStart` | assets/js/main.js:130-133 | updates the fields exactly as `OnTouchStart` |
| `ScrubController.Controller.HandleTouchMove` | assets/js/main.js:135-149 | updates the fields and emits exactly as `OnTouchMove`, keeping the invariant |
| `ScrubController.Controller.UpdateScrub` | assets/js/main.js:77-106 | updates the fields and emits exactly as `Tick`, keeping the invariant |
| `ScrubController.Controller.HandlePrev` | assets/js/main.js:162-171 | emits exactly the scrolls of `OnPrev` and changes nothing |
| `ScrubController.Controller.HandleNext` | assets/js/main.js:174-190 | updates the fields and emits exactly as `OnNext`, keeping the invariant |

## Left out

- Video source creation (MP4 before WebM), `load()`, and the `error` listener (`assets/js/main.js:26-48`, `66-68`). These are media I/O. A video that never becomes ready is a history with no `Ready` event.
- The loading-screen `loaded` class, the delayed `display = 'none'`, and the first section's `minHeight`. These are styling only.
- `console.log`, `console.error` and `toFixed`. These are diagnostics only.
- `firstVideoLoaded`, `touchStartY` and the two `scrollY` reads. Nothing reads them afterwards.
- What the browser does with the emitted effects: the real animation-frame scheduling, the smooth scroll of `scrollIntoView`, and the actual seek. The effects are returned, not performed.
- `getBoundingClientRect`. The rectangles are given as input, and the model does not say how they change as the page scrolls.
- IEEE-754 doubles. Numbers are exact reals, so the 0.6 and 0.3 factors and the division by 24 carry no rounding error, and no offset overflows.
- `e.touches[0]` on a touch event with no touches. The model takes the finger position as given.
