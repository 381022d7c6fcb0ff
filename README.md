# Satellite viewer: view-state controller

A model of the view-state controller of the satellite viewer page
(`script.js`), with proofs of what its handlers do. The controller owns the
module flag `overlayVisible`, the overlay's inline `display`, the toggle
button's label, the `boxShadow` highlight of the three zones (Safe, Warning,
Critical) and a single-slot notification banner (`errorContainer`: its
`display`, its `background` and what it says).

The commands `toggleOverlay`, `resetView` and `setupOverlayInteractions`
first run `validateElements`, which visits nine element handles in a fixed
order and throws `Required element not found: <name>` on
the first one that is missing. One of these commands whose check fails changes nothing
but the banner, which shows the command's failure prefix followed by that
message. The banner writers `showSuccess` and `showError` each schedule an
auto-hide callback; here each callback is an explicit event.

Layout:

- `wrappers.dfy` (module `Wrappers`): `Option` and `Outcome`.
- `elements.dfy` (module `Elements`): the nine handles, their names and
  order, the specification `Validation` and the method `ValidateElements`.
- `notifications.dfy` (module `Notifications`): the banner as a value and
  the two writers and two timer callbacks as functions on it.
- `viewstate.dfy` (module `ViewState`): the whole observable state as a
  `View` value, each command as a function on it, and the lemmas.
- `controller.dfy` (module `Controller`): class `ViewController` with one
  field per observable property. Each handler is a method that overwrites
  fields in place and promises that the new state is the `ViewState`
  function of the old one.

Environment facts the code reads are inputs of the model. `Page.present` is
the set of handles the page lookup found; the handles are `const` bindings
made at load, so it never changes. `Page.dataLevel` is each zone's
`data-level` attribute, and the constructor's `markupLabel` is the button's
initial text. Both come from the page markup, which is not part of this
model. The zone click handler runs no check of its own: its listeners
exist only after `setupOverlayInteractions` has passed its check.

Points where the code behaves differently from what one might expect:

- `resetView` does not clear the zone highlight. The lemma
  `ViewState.Session` shows the Warning zone still lit after a reset.
- The selected zone is not stored anywhere except the three `boxShadow`
  values.
- `toggleOverlay` and `resetView` can fail: their validation check runs
  first.
- `showError` never sets the background. An error posted while a success
  notice is still up is shown on the green background. The earlier success
  callback then hides the error and repaints the banner red
  (`Notifications.ErrorAfterSuccessIsGreen`,
  `Notifications.StaleSuccessTimerHidesError`).
- With `errorContainer` missing, both writers throw on their first style
  write and swallow the error. A failing command then changes nothing at
  all.

## Model

| member | source | states |
|---|---|---|
| `Elements.FirstMissingIndex` | script.js:68-72 | the index returned is the first handle in the order that is absent, with every earlier one present, or the length when all are present |
| `Elements.ValidateElements` | script.js:55-73 | the loop passes exactly when all nine handles are present; otherwise it fails with "Required element not found: " and the name of an absent handle, and its outcome equals `Validation` |
| `Elements.ValidationSpec` | script.js:55-73 | validation passes exactly when all handles are present; a failure names the first absent handle in the order drone, satelliteView, overlay, toggleOverlayBtn, resetViewBtn, errorContainer, safeZone, warningZone, criticalZone |
| `Elements.OrderListsEveryHandleOnce` | script.js:56-66 | the scan visits nine handles, each of them exactly once |
| `Elements.NamesAreDistinct` | script.js:56-70 | different handles give different names and different error messages |
| `Notifications.MissingContainerChangesNothing` | script.js:15-52 | with the banner element missing, both writers leave the banner unchanged |
| `Notifications.NewestReplacesOldest` | script.js:19-23 | a write shows the banner and replaces whatever notice was there |
| `Notifications.SuccessThenItsTimer` | script.js:35-48 | a success shows the banner on green; its callback hides it and restores red, keeping the content |
| `Notifications.ErrorThenItsTimer` | script.js:15-28 | an error then its callback leaves the banner hidden with the background it had before |
| `Notifications.ErrorAfterSuccessIsGreen` | script.js:19-38 | an error written over a success keeps the green background |
| `Notifications.StaleSuccessTimerHidesError` | script.js:26-48 | a pending success callback hides a later error and repaints the banner red while the error's own callback is still pending |
| `ViewState.LevelNamesMatchZones` | script.js:159-164 | the label table knows exactly the levels safe, warning and critical, each mapped to its zone's label |
| `ViewState.ClearShadowsBlanks` | script.js:167-169 | clearing sets the highlight of every listed zone to the empty value and keeps every other entry |
| `ViewState.CommandsKeepConsistent` | script.js:96-178 | every command and callback keeps the invariant: listeners only when all handles exist, pending callbacks only when the banner exists, an entry per zone |
| `ViewState.ToggleSucceeds` | script.js:100-110 | a successful toggle negates the flag and sets display, label and message to 'block' / 'Hide Overlay' / "Overlay shown" when visible, otherwise 'none' / 'Show Overlay' / "Overlay hidden"; highlights are untouched |
| `ViewState.ToggleTwiceRestores` | script.js:100 | two toggles restore the flag on every page, and also display, label and highlights when display and label agreed with the flag |
| `ViewState.ResetSucceeds` | script.js:117-142 | a successful reset yields flag true, display 'block' and label 'Hide Overlay' whatever the prior state, a success message, and leaves the highlights alone |
| `ViewState.ResetIdempotent` | script.js:117-142 | a reset never touches the highlights, and a second reset shows the same state as the first |
| `ViewState.FailedValidationOnlyTouchesBanner` | script.js:97-141 | when a handle is missing, toggle, reset and setup keep flag, display, label and highlights and only post "Failed to toggle overlay: ", "Failed to reset view: " or "Failed to setup overlay interactions: " plus the message naming the first missing handle |
| `ViewState.ZoneClickHighlightsOnlyClicked` | script.js:167-171 | with the listeners registered, after a click exactly the clicked zone is highlighted, the other two are cleared, and only highlights and banner change |
| `ViewState.ZoneClickReportsLabel` | script.js:159-174 | in any reachable state with the listeners registered and the zone's `data-level` at its usual value, the click posts "Selected zone: " followed by "Safe (Green)", "Warning (Yellow)" or "Critical (Red)" |
| `ViewState.ZoneClickEdgeCases` | script.js:150-174 | a click before the listeners exist does nothing; an unknown or missing data-level prints "undefined" |
| `ViewState.ZoneClickIdempotent` | script.js:167-174 | repeating the same click shows nothing new |
| `ViewState.CommandsKeepSynced` | script.js:100-124 | once display and label agree with the flag, every command and callback keeps them in agreement |
| `ViewState.Session` | script.js:96-178 | setup, toggle, click Warning, reset: the overlay is hidden with 'Show Overlay', then "Selected zone: Warning (Yellow)", then shown again with the Warning zone still highlighted |
| `Controller.ViewController.constructor` | script.js:1-12 | the flag starts true, no inline style is written and nothing is pending |
| `Controller.ViewController.ShowSuccess` | script.js:35-52 | the fields become the `showSuccess` banner transition of the old state; nothing else changes and the invariant is kept |
| `Controller.ViewController.ShowError` | script.js:15-32 | the fields become the `showError` banner transition; the background is untouched and the invariant is kept |
| `Controller.ViewController.SuccessTimerFires` | script.js:45-48 | the success callback hides the banner and sets the red background |
| `Controller.ViewController.ErrorTimerFires` | script.js:26-28 | the error callback only hides the banner |
| `Controller.ViewController.ToggleOverlay` | script.js:96-114 | the new state is `ViewState.ToggleOverlay` of the old one, and the invariant is kept |
| `Controller.ViewController.ResetView` | script.js:117-142 | the new state is `ViewState.ResetView` of the old one, and the invariant is kept |
| `Controller.ViewController.SetupOverlayInteractions` | script.js:145-201 | the listeners are registered exactly when validation passes; otherwise the setup error is posted |
| `Controller.ViewController.ZoneClicked` | script.js:154-178 | the loop clears all three highlights, then the clicked zone is lit and its label posted, as `ViewState.ZoneClick` says; with listeners registered and the usual markup, the banner holds "Selected zone: " and the zone's label |

## Left out

- Terrain rendering (`loadSatelliteView`, `drawTerrainFeatures`, the resize handler): random canvas drawing with floating-point coordinates and no checkable result.
- Drone entry animation (`initDroneAnimation`) and the `drone-entering` / `pulse` class changes in `resetView`: they rely on CSS transitions and delays.
- `setTimeout` itself: callbacks are explicit events (`SuccessTimerFires`, `ErrorTimerFires`) that may run once per scheduled call. Delays, the order between timers and cancellation are not modelled.
- DOM plumbing: element lookup, listener registration in `initApp`, `preventDefault` / `stopPropagation`, `pointerEvents`, and the hover `transform` effects.
- Banner markup: the `innerHTML` template and its inline Close button. The content is modelled as a kind (Success or Error) and a message string.
- `console.error` / `console.log` output.
- The click handler's own `catch` ("Error handling overlay click: "). Once the listeners exist every handle was found, and nothing in the handler can throw.
- ViewState.LevelText: a `data-level` equal to the name of an inherited object property (such as "constructor") would print that property rather than "undefined"; the model prints "undefined".
- Calling `setupOverlayInteractions` twice registers duplicate listeners. The model keeps a single flag, because `initApp` calls it once.
- The click handler clears every element with a zone class. The model takes the three zone handles to be the only such elements.
- The model accepts events the page never delivers. `initApp` validates before it registers any listener, so with a handle missing the toggle and reset buttons have no listeners, and the failure paths of `ToggleOverlay`, `ResetView` and `SetupOverlayInteractions` are reached only by calling those functions directly. A zone click is also accepted while the overlay is hidden. This over-approximation is sound: every property proved for these paths also holds for the events the page does deliver.
