# viewport-res overlay controller in Dafny

A model of `src/index.js` of viewport-res. This small browser utility pins an overlay to one
corner of the page. The overlay shows the viewport size as `"{width} × {height}"` and
refreshes after resizing pauses for a debounce delay. Callers control it through a handle
with `show`, `hide`, `destroy` and `update`.

The model has one module per concern:

- `Position` (position.dfy): the corner-to-inset lookup `getPositionStyles`, both as
  written and as evidently intended (see the first finding below). The controller uses the
  as-written lookup, because that is what the program runs.
- `Options` (options.dfy): the configuration record, its defaults, and the
  defaults-then-overrides merge `{ ...defaultOptions, ...options }`.
- `Resolution` (resolution.dfy): the overlay text. Numbers are written in decimal the way
  JavaScript prints them. A parser is its partner, and the two are proved to round-trip.
- `Document` (document.dfy): an abstract host document. Nodes are kept in the order they
  were inserted, and a reference is a position in that sequence. While at most one element
  carries the overlay id, searching in this order agrees with searching in tree order.
  Each node has an id, a parent (`None` once removed), a text, an inline opacity and the
  overlay's configurable style. The module also models `getElementById` (first element in
  the document with the id).
- `Controller` (controller.dfy): the module-level state as one immutable `State`. That
  state covers the held element (`screenElement`), the `resizeTimeout` variable, the
  host's pending timers, the registered resize listeners (each a closure with its own
  identity and captured delay), the `initElement` closures waiting for DOMContentLoaded,
  the document and the viewport. Every call into the module and every host event is a
  pure transition: `Init`, `InitElement`, `UpdateResolution`, `HandleResize`, `Resize`,
  `FireTimer`, `Hide`, `Show`, `Destroy`, `BodyParsed`, `ContentLoaded`. `DestroyIntended`
  is the teardown `destroy` evidently intends. `Step` and `Run`
  fold these over event sequences.
- `ControllerProperties` (properties.dfy): properties over arbitrary event sequences. It
  proves the invariant `Inv`: at most one element carries the overlay id, at most one
  debounce timer is pending, and the held element is that overlay. It also proves
  idempotent adoption, last-resize-wins, no-ops after `destroy`, deferred initialisation
  and the listener leak of `destroy`.

Host inputs are parameters or events, not behaviour:

- The presence of `window` and `document.body` are fields of the state.
- The viewport size is a field, and a resize sets it.
- A timer runs only when a `TimerElapsed` event for its handle arrives.
- `BodyReady` and `DomContentLoaded` are explicit events.

The code's `destroy` does not remove the resize listener, and the model follows the code.
`destroy` calls `window.removeEventListener` with a closure it creates on the spot. So it
removes nothing, and every `init`/`destroy` round on a page without the overlay leaves one
more listener registered (`ControllerProperties.Rounds`). After `destroy`, a resize
therefore still arms a timer (`ControllerProperties.DestroyLeavesResizeArmed`). A teardown
that removes the listener registered at init time is the evidently intended contract.
`Controller.DestroyIntended` models that teardown, and `ControllerProperties.IntendedRounds`
proves it leaves the listeners unchanged. The second finding below records this. Even with
the leaked listeners, at most one timer is pending, because all listeners share the single
`resizeTimeout` variable (`ControllerProperties.LeakedListenersShareOneTimer`,
`ControllerProperties.RunInv`).

## Model

| member | source | states |
|---|---|---|
| Position.ParseCorner | src/index.js:12-17 | exactly the four corner names `top-left`, `top-right`, `bottom-left`, `bottom-right` are recognised, each as the corner it names |
| Position.GetPositionStyles | src/index.js:11-19 | a corner name yields exactly the inset of the vertical edge and of the horizontal edge that corner touches, each `8px`; every other position yields `top` and `left` at `8px` |
| Position.GetPositionStylesAnchorsOneCorner | src/index.js:11-19 | for any position the styles hold exactly two insets, one of top/bottom and one of left/right, all `8px` |
| Position.LookupAsWritten | src/index.js:18 | the property access on the table finds an own entry exactly for the four corner names, and an inherited member exactly for the names of `Object.prototype` members |
| Position.GetPositionStylesAsWritten | src/index.js:18 | as written: names of `Object.prototype` members yield no inset at all; every other position agrees with the corrected lookup |
| Position.ConstructorPositionLosesFallback | src/index.js:18 | the position `constructor` anchors to no corner as written, while the intended lookup gives top-left |
| Options.Merge | src/index.js:69 | each merged field is the caller's value when supplied, and otherwise the default: `top-left`, `#ff3333`, `rgba(0, 0, 0, 0.7)`, `12px`, `100` |
| Options.MergeNoOverridesIsDefaults | src/index.js:3-9 | `init()` with no options runs with exactly the defaults |
| Options.MergeSuppliedRoundTrip | src/index.js:69 | a caller supplying every field gets its own configuration back |
| Options.MergeIdempotent | src/index.js:69 | merging the merged configuration again changes nothing |
| Resolution.Decimal | src/index.js:53 | a number's text is a non-empty digit string with no leading zero (except `0` itself), one digit long exactly below ten |
| Resolution.ResolutionText | src/index.js:53 | the overlay text is the width's digits, then space, U+00D7, space, then the height's digits |
| Resolution.ValueOfDecimal | src/index.js:53 | the decimal text of a number denotes that number |
| Resolution.DecimalOfValue | src/index.js:53 | a canonical digit string is the decimal text of the number it denotes |
| Resolution.ParseResolutionText | src/index.js:53 | parsing the overlay text gives back the width and height it was written from |
| Resolution.ResolutionTextOfParse | src/index.js:53 | every text the parser accepts is exactly the overlay text of what it returns |
| Resolution.ParseResolutionIff | src/index.js:53 | a text reads as a width and height if and only if it is their overlay text |
| Resolution.ResolutionTextInjective | src/index.js:53 | different viewports are shown as different texts |
| Document.GetElementById | src/index.js:72-73 | yields the first element in the document with the id, and yields none exactly when no element in the document has it |
| Controller.Load | src/index.js:1-2 | before any `init` nothing is held, no timer is pending or stored, no listener is registered or recorded, and nothing is queued; the page, the viewport, the window and body flags, and whether DOMContentLoaded already happened are as given |
| Controller.UpdateResolution | src/index.js:48-54 | with nothing held the state is unchanged; otherwise only the held element's text changes, to the current viewport's overlay text |
| Controller.ClearTimeout | src/index.js:57 | exactly the pending timers with the given handle are dropped; a null handle drops none |
| Controller.HandleResize | src/index.js:56-61 | the timer named by `resizeTimeout` is cancelled and a freshly issued one with the given delay is pending and stored there; nothing else changes |
| Controller.HandleResizeRearms | src/index.js:56-61 | from a state whose only pending timer is the stored one, cancel-and-rearm leaves exactly the new timer pending |
| Controller.DispatchResize | src/index.js:81 | each listener cancels and re-arms in turn: at most one timer stays pending, and it carries the delay of the last listener |
| Controller.Resize | src/index.js:56-61 | a resize updates the viewport and touches no node; with listeners, exactly one timer is left, with the last listener's delay; only the viewport and the timer bookkeeping change, so queued `initElement` closures, listeners and flags are untouched |
| Controller.FireTimer | src/index.js:58-60 | a pending timer that fires is removed and runs `updateResolution`: only the held element's text changes, to the viewport of the firing moment, and with nothing held no node changes; a handle not pending changes nothing |
| Controller.CreateElement | src/index.js:21-46 | a new element has the overlay id, no parent, no text, no opacity, the configured colours and font size, and the insets of the lookup as written: the corner's insets (top-left for an unknown name), and none for the name of an `Object.prototype` member |
| Controller.InitElement | src/index.js:71-82 | an existing overlay is only adopted; otherwise the element `createElement` builds is appended under the body (the root without a body) with the viewport as its text and nothing else changed, and exactly one listener with the configured delay is registered |
| Controller.Init | src/index.js:63-90 | without a window: null and no change; otherwise the handle is returned, and `initElement` runs now if the body exists or is queued for DOMContentLoaded |
| Controller.RunReadyQueue | src/index.js:87 | running no queued closure changes nothing; running a non-empty queue leaves an element held |
| Controller.BodyParsed | src/index.js:84 | the body exists from then on, and nothing else changes |
| Controller.ContentLoaded | src/index.js:84-88 | DOMContentLoaded runs only once: it empties the queue, with an empty queue it only marks the page loaded, and an overlay is held afterwards if anything was queued |
| Controller.SetOpacity | src/index.js:91-96 | only the held element's opacity changes; with nothing held, no change |
| Controller.Hide | src/index.js:91-93 | the held element's opacity becomes `0` and nothing else in the state changes; with nothing held, no change |
| Controller.Show | src/index.js:94-96 | the held element's opacity becomes `1` and nothing else in the state changes; with nothing held, no change |
| Controller.RemoveEventListener | src/index.js:101 | exactly the listeners that are the given closure are removed, so a closure never registered removes nothing |
| Controller.Destroy | src/index.js:97-104 | the held element is detached, the stored timer is cancelled and the reference is dropped; the registered listeners are unchanged |
| Controller.DestroyIntended | src/index.js:97-104 | the intended teardown: as `destroy`, except that exactly the listener the overlay's `initElement` registered is unregistered |
| ControllerProperties.StepInv | src/index.js:56-105 | every transition keeps the invariant: at most one overlay in the document, at most one pending timer (the stored one), and the held element is the overlay |
| ControllerProperties.RunInv | src/index.js:56-105 | after any event sequence, at most one element carries the overlay id and at most one timer is pending |
| ControllerProperties.InitTwiceKeepsOneOverlay | src/index.js:71-75 | a second `init` on a page with a body adds no element and no listener, and exactly one overlay is in the document and held |
| ControllerProperties.ResizeRearms | src/index.js:56-61 | one resize leaves exactly one timer pending, with the last listener's delay, and the text untouched |
| ControllerProperties.ResizeBurstLeavesOneTimer | src/index.js:56-61 | after any non-empty burst of resizes, exactly one timer is pending, with the last listener's delay; no text was written |
| ControllerProperties.LastResizeWins | src/index.js:56-61 | when the one pending timer of a burst fires, the overlay shows the viewport of the burst's last resize, and no timer is left |
| ControllerProperties.FireSoleTimer | src/index.js:58-60 | firing the only pending timer writes the viewport of that moment and leaves no timer pending |
| ControllerProperties.DestroyThenNoOps | src/index.js:91-105 | after `destroy` no timer is pending; `show`, `hide`, `update` and any timer change nothing; and the overlay it held is no longer in the document |
| ControllerProperties.InitDestroyRound | src/index.js:71-104 | `init` then `destroy` on a page without the overlay leaves no overlay and exactly one more listener |
| ControllerProperties.Round | src/index.js:97-104 | one `init`/`destroy` round keeps a page bare and appends that round's listener |
| ControllerProperties.Rounds | src/index.js:101 | after n rounds the page is bare again, yet n more listeners are registered: `destroy` never removes them |
| ControllerProperties.RoundIsInitThenDestroy | src/index.js:90-104 | a round is the event sequence `init(o)` then `destroy()` |
| ControllerProperties.LeakedListenersShareOneTimer | src/index.js:56-61 | after a round and a fresh `init`, two listeners are registered, yet a resize leaves exactly one pending timer |
| ControllerProperties.DeferredInit | src/index.js:84-90 | before the body exists, `init` returns its handle and touches neither document nor listeners; after DOMContentLoaded an overlay is held and in the document |
| ControllerProperties.AdoptHeldIsNoOp | src/index.js:72-75 | while the overlay is held, `initElement` adopts that same element and changes nothing |
| ControllerProperties.RunReadyQueueAdoptsAll | src/index.js:72-75 | queued `initElement` closures that run while an overlay is held change nothing |
| ControllerProperties.RunReadyQueueFirstWins | src/index.js:71-88 | running the queue equals running its first `initElement` alone: later queued options are ignored |
| ControllerProperties.ContentLoadedRunsFirstInit | src/index.js:84-88 | the first DOMContentLoaded is the first queued `initElement`, run on the loaded page with an empty queue |
| ControllerProperties.ContentLoadedCreatesOnce | src/index.js:77-87 | on a page without the overlay, DOMContentLoaded appends exactly one overlay: the element `createElement` builds from the first queued options, placed under the body or root and showing the viewport; it registers exactly one listener |
| ControllerProperties.DestroyLeavesResizeArmed | src/index.js:97-104 | right after `destroy` no timer is pending, yet while a listener is registered a resize arms exactly one timer again |
| ControllerProperties.IntendedRound | src/index.js:71-104 | with the intended teardown, one `init`/`destroy` round keeps a page bare, with no timer pending and the same listeners |
| ControllerProperties.IntendedRounds | src/index.js:97-104 | with the intended teardown, any number of rounds leave the registered listeners exactly as they were |
| ControllerProperties.IntendedRoundArmsNothing | src/index.js:56-61 | with the intended teardown, a resize after a round on a page with no listeners arms no timer |
| ControllerProperties.DestroyBeforeReadyStillInitializes | src/index.js:87 | `destroy` before DOMContentLoaded does not cancel the queued `initElement`, so an overlay is still held once the document is ready |
| ControllerProperties.ScenarioInit | src/index.js:63-88 | `init` at bottom-right with a 50 ms delay, on an empty 1024 by 768 page, creates one overlay pinned bottom-right showing `1024 × 768` |
| ControllerProperties.ScenarioResize | src/index.js:56-61 | then a resize to 800 by 600 arms one 50 ms timer, and its firing shows `800 × 600` |
| ControllerProperties.ResizeThenFire | src/index.js:56-61 | with one listener of delay 50, a resize arms one timer whose firing shows the new viewport |

## Left out

- rollup.config.js: build configuration with no runtime behaviour.
- Real time and the event loop. Timers fire only when a `TimerElapsed` event names them. A timer's delay is carried but never compared with a clock. `setTimeout`'s clamping of negative or non-numeric delays is not modelled.
- `console.warn` on a missing window (src/index.js:65): host output with no effect on state.
- The load-time bootstrap through `window.screenResInstance` (src/index.js:109-111), and the CommonJS/ES module exports (src/index.js:113-117): packaging, not logic.
- The constant styles of `createElement` (padding, radius, `position: fixed`, z-index, font family and weight, pointer events, user select, shadow, transition) and `aria-hidden`: they are fixed CSS strings with no behaviour.
- Option values that JavaScript would pass through untyped: an option given explicitly as `undefined` (spread copies it and replaces the default), and a position that is not a string. Options are a typed record in which a field is either supplied or absent.
- Other code on the page removing the overlay. In the model, only `destroy` detaches the held element, so a held element is always in the document.
- Controller.Init: the handle's operations act on the module-level state, not on anything the handle captures, so they are the state transitions `Hide`, `Show`, `UpdateResolution` and `Destroy`. The handle value records only the configuration the call merged.

## Findings

| source | as written | input that shows it | evidently intended | confidence | as-written member | corrected member |
|---|---|---|---|---|---|---|
| src/index.js:18 | the lookup indexes an object literal, so a position naming an `Object.prototype` member finds that inherited member. That member is truthy, so the top-left fallback is skipped. Spreading it copies no own inset property, so the overlay is pinned to no corner | position `"constructor"` (likewise `"toString"`, `"valueOf"`, `"__proto__"`, ...) | every position other than the four corner names falls back to top-left | not executed; high | Position.ConstructorPositionLosesFallback | Position.GetPositionStyles |
| src/index.js:101 | `destroy` passes `removeEventListener` a closure it creates on the spot. That closure was never registered, so the listener added at src/index.js:81 stays registered | `init()` then `destroy()`, n times on a page without the overlay: n resize listeners remain, and a later resize arms a timer | `destroy` unregisters the listener its `initElement` registered | not executed; high | ControllerProperties.Rounds | ControllerProperties.IntendedRounds |
