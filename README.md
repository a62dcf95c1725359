# Gesture recogniser, keyboard shortcuts and relative time

A Dafny model of three services of a drawing application:

- **TouchController**: the gesture recogniser behind the drawing surface. It listens to touch, mouse and wheel events and
  classifies them as TAP, DRAG, UNDO, SCALE, REDO or VOID. It broadcasts `(gesture, START | UPDATE | END, data)` to its
  subscribers.
  - The recogniser keeps one current gesture with its last payload, a map from touch identifier to start position, and the
    touch count of the latest `touchstart`.
  - A touch that moves more than 20 px (taxicab) from its start classifies the gesture by the number of touches down. The
    START payload is the centroid of the recorded touches.
  - A release with nothing classified becomes TAP (one finger), UNDO (two) or REDO (any other count).
  - Mouse presses drag; the wheel and a keyboard zoom scale.
- **Shortcut**: a registry of listeners per named shortcut, and a key-down handler. The handler fires the listeners of the
  first entry of a fixed, ordered table that the key event matches. A held Option key (code 91) stands in for a required
  Control key.
- **timeago**: the text "just now", "N s ago", …, "N years ago" for a timestamp, given the current time.

## Modules

| File | Module | What it holds |
|---|---|---|
| `wrappers.dfy` | `Wrappers` | `Option`, `Result` |
| `registry.dfy` | `Registry` | `indexOf` + `splice` removal, shared by `off` and the shortcut unsubscriber |
| `geometry.dfy` | `Geometry` | points, taxicab distance, dilation, the mean |
| `pointers.dfy` | `Pointers` | the pointer `Map`: an insertion-ordered list of contacts with distinct identifiers |
| `gestures.dfy` | `Gestures` | gestures, phases and payloads; what `broadcast` emits (`Emit`) and delivers (`Fan`); the bracket automaton `Replay` |
| `classifier.dfy` | `Classifier` | threshold test, gesture kinds, payload builders, repeated crossings (`Restarts`) |
| `touch_controller.dfy` | `TouchControl` | `class TouchController` |
| `shortcut.dfy` | `Shortcuts` | the `EVENTS` table, the matcher, `class Shortcut` |
| `timeago.dfy` | `TimeAgo` | `timeago` as a function, with its properties |

### TouchController

The class keeps the source's fields: `pointers`, `callbacks`, `lastData`, `currentEvent` and `gestureMaxTouches`. It adds two
more:

- `invoked`: every call made into a subscriber, in order.
- `trace` (ghost): every signal that passed `broadcast`'s filter.

Every handler states its whole new state exactly, in terms of `Switch` (END of the old gesture, then START of the new one),
`Emit`, `Fan`, `ReleaseSignals` and `Restarts`.

The invariant `Valid()` says that the trace is well bracketed: replayed through the automaton `Next`, it leaves the current
gesture open with `lastData` as its last payload. The lemmas in `Gestures` read off what this means for subscribers:

- NONE and VOID are never delivered: `Valid()` also says every call in `invoked` carries a signal of the trace.
- Every START after the first follows an END.
- Every END repeats the payload of the signal just before it.

## Model

| member | source | states |
|---|---|---|
| Registry.IndexOf | src/services/touchController/touchController.ts:106 | -1 exactly when the element is absent; otherwise the index of its first occurrence |
| Registry.RemoveFirst | src/services/touchController/touchController.ts:105-110 | absent element: list unchanged; present: one shorter |
| Registry.RemoveFirstMultiset | src/services/touchController/touchController.ts:105-110 | exactly one occurrence of the element is taken out, nothing else |
| Registry.RemoveFirstShifts | src/services/shortcut/shortcut.ts:35-38 | survivors keep their order: before the removed index in place, after it shifted by one |
| Registry.RemoveAfterAppend | src/services/shortcut/shortcut.ts:32-38 | removing a listener just appended (absent before) restores the list |
| Geometry.Taxicab | src/services/touchController/touchController.ts:143-145 | the distance is non-negative and zero only for the zero vector |
| Geometry.TaxicabZero | src/services/touchController/touchController.ts:303-306 | two points are at distance zero exactly when equal |
| Geometry.DilateGap | src/services/touchController/touchController.ts:302-306 | scaling about any centre by k > 0 multiplies taxicab gaps by k |
| Geometry.Mean | src/services/touchController/touchController.ts:157-162 | helper: the centroid of the recorded positions; for a single touch it is that touch |
| Geometry.MeanWithinBox | src/services/touchController/touchController.ts:157-162 | the mean of points lies in every axis-aligned box containing them |
| Pointers.Lookup | src/services/touchController/touchController.ts:142 | `get` finds a value exactly when some entry has the identifier |
| Pointers.Put | src/services/touchController/touchController.ts:126 | `set` of a new key appends it; of a present key keeps the size |
| Pointers.Remove | src/services/touchController/touchController.ts:182 | `delete` of an absent key changes nothing; of a present key removes one entry |
| Pointers.Positions | src/services/touchController/touchController.ts:157-160 | helper: the positions in map order, one per entry |
| Pointers.LookupPut | src/services/touchController/touchController.ts:126 | after `set`, the key maps to the new position and every other key is unchanged |
| Pointers.PutKeepsUnique | src/services/touchController/touchController.ts:124-127 | `set` keeps the identifiers distinct |
| Pointers.LookupRemove | src/services/touchController/touchController.ts:182 | after `delete`, the key is gone and every other key is unchanged |
| Pointers.RemoveKeepsUnique | src/services/touchController/touchController.ts:177-183 | `delete` keeps the identifiers distinct |
| Pointers.RecordAll | src/services/touchController/touchController.ts:124-127 | the map grows by at most one entry per changed touch, keeps every tracked key and tracks every changed touch |
| Pointers.RemoveAll | src/services/touchController/touchController.ts:177-183 | the map shrinks by at most one entry per lifted touch and tracks no new key |
| Pointers.RecordAllLookup | src/services/touchController/touchController.ts:124-127 | after the backward loop a key maps to its FIRST changed touch; untouched keys keep their position |
| Pointers.RecordAllKeepsUnique | src/services/touchController/touchController.ts:124-127 | the loop keeps the identifiers distinct |
| Pointers.RemoveAllLookup | src/services/touchController/touchController.ts:177-183 | after the loop no lifted key is tracked and the rest are unchanged |
| Gestures.Emit | src/services/touchController/touchController.ts:329-336 | a broadcast yields one signal exactly when the gesture is neither NONE nor VOID, else none |
| Gestures.Deliver | src/services/touchController/touchController.ts:335 | helper: one call per callback, in registration order, each with the signal |
| Gestures.Fan | src/services/touchController/touchController.ts:329-336 | helper: the calls of several broadcasts in a row; a single broadcast is one round of `callbacks.forEach` |
| Gestures.DeliveredExtends | src/services/touchController/touchController.ts:329-336 | a broadcast batch keeps every call in the delivery log carrying a signal of the trace |
| Gestures.DeliveredAreBroadcastable | src/services/touchController/touchController.ts:331-335 | no subscriber of a well-bracketed trace ever receives NONE or VOID |
| Gestures.FanAppend | src/services/touchController/touchController.ts:335 | delivering two batches one after the other equals delivering their concatenation |
| Gestures.FanCount | src/services/touchController/touchController.ts:335 | each callback gets each signal once: \|callbacks\| × \|signals\| calls |
| Gestures.FanCarriesSignals | src/services/touchController/touchController.ts:335 | every call carries a broadcast signal and goes to a subscribed callback |
| Gestures.FanToNobody | src/services/touchController/touchController.ts:363 | with no callbacks left nothing is invoked, whatever is broadcast |
| Gestures.Expected | src/services/touchController/touchController.ts:331-334 | helper: the bracket state the controller's fields stand for, never Broken |
| Gestures.ReplayAppend | src/services/touchController/touchController.ts:318-323 | replaying a concatenation replays the parts in turn |
| Gestures.ReplayPrefix | src/services/touchController/touchController.ts:318-323 | a stream that is not broken has no broken prefix |
| Gestures.OpenIsBroadcastable | src/services/touchController/touchController.ts:331-333 | only a broadcastable gesture is ever open |
| Gestures.WellBracketedIsBroadcastable | src/services/touchController/touchController.ts:331-333 | a well-bracketed stream carries no NONE or VOID |
| Gestures.StartFollowsEnd | src/services/touchController/touchController.ts:318-323 | every START after the first comes right after an END |
| Gestures.EndClosesPrevious | src/services/touchController/touchController.ts:319-321 | every END has a non-END signal of the same gesture before it, with the same payload |
| Gestures.Switch | src/services/touchController/touchController.ts:318-323 | one signal per broadcastable gesture among the old and new one; the old gesture's END with its last payload comes first, the new gesture's START with the new payload last |
| Gestures.SwitchKeepsBracket | src/services/touchController/touchController.ts:318-323 | END then START moves the automaton from the old gesture to the new one (closed for NONE/VOID) |
| Gestures.SwitchExtends | src/services/touchController/touchController.ts:318-323 | a well-bracketed trace stays well bracketed across a gesture switch |
| Gestures.Chain | src/services/touchController/touchController.ts:344-345 | helper: two broadcast batches extend the trace and the log as their concatenation does |
| Gestures.UpdateKeepsBracket | src/services/touchController/touchController.ts:325-327 | an UPDATE keeps the gesture open and records its payload |
| Classifier.ThresholdKind | src/services/touchController/touchController.ts:164-170 | DRAG exactly for one touch, SCALE exactly for two, VOID for any other count; broadcastable exactly for one or two |
| Classifier.ReleaseKind | src/services/touchController/touchController.ts:186-192 | TAP exactly for one touch, UNDO exactly for two, REDO for any other count (0 included); always broadcastable |
| Classifier.Moved | src/services/touchController/touchController.ts:142-145 | the `x + y > 20` test; a touch counted as moved is not at its start |
| Classifier.Crosses | src/services/touchController/touchController.ts:141-145 | only a tracked touch that is not at its recorded start can cross |
| Classifier.Crossings | src/services/touchController/touchController.ts:137-145 | the number of crossing touches is at most the number of changed touches |
| Classifier.CrossingsZero | src/services/touchController/touchController.ts:137-145 | no crossing is counted exactly when no changed touch crossed |
| Classifier.CrossesByGap | src/services/touchController/touchController.ts:142-145 | a tracked touch crosses exactly when \|dx\| + \|dy\| from its start exceeds 20 |
| Classifier.CrossingsStep | src/services/touchController/touchController.ts:137-145 | counting a suffix peels off its first touch |
| Classifier.StartData | src/services/touchController/touchController.ts:147-162 | the START payload has a zero drag and no scale or angle |
| Classifier.DragUpdate | src/services/touchController/touchController.ts:274-283 | origin is the start and origin + drag is the current position |
| Classifier.ScaleRatio | src/services/touchController/touchController.ts:302-306 | the scale is non-negative and zero exactly when the two fingers coincide |
| Classifier.QuotientSign | src/services/touchController/touchController.ts:302-306 | a non-negative quotient by a positive gap, zero only for a zero numerator |
| Classifier.PinchUpdate | src/services/touchController/touchController.ts:293-312 | origin is the start midpoint, origin + drag the current midpoint, the scale the ratio, the angle the one given |
| Classifier.ZoomData | src/services/touchController/touchController.ts:339-343 | payload helper: origin (-1, -1), zero drag, the given scale |
| Classifier.PressData | src/services/touchController/touchController.ts:203-212 | payload helper: origin at the press point, zero drag |
| Classifier.WheelStartData | src/services/touchController/touchController.ts:246-250 | payload helper: origin at the cursor, zero drag, scale 1 |
| Classifier.Restarts | src/services/touchController/touchController.ts:137-171 | n crossings of a broadcastable kind emit 2n - 1 signals starting with START; otherwise none |
| Classifier.RestartsGrow | src/services/touchController/touchController.ts:164-170 | one more crossing is one more `setEventType` from the state the previous ones left |
| Classifier.RestartsBracket | src/services/touchController/touchController.ts:137-171 | any number of crossings leaves the kind open with the START payload |
| Classifier.StartOriginInsideContacts | src/services/touchController/touchController.ts:157-162 | the START origin lies in every box holding all recorded touches |
| Classifier.PinchOfTranslation | src/services/touchController/touchController.ts:293-306 | two fingers moved together by v give scale 1 and drag v |
| Classifier.PinchOfDilation | src/services/touchController/touchController.ts:302-306 | spreading both fingers by k about any centre gives scale k |
| TouchControl.UpdatePayload | src/services/touchController/touchController.ts:266-316 | a payload exists exactly for DRAG with a touch or SCALE with two; a drag's origin is the first touch's recorded start and origin + drag its current position; a pinch's origin is the start midpoint, origin + drag the current midpoint, scale the taxicab ratio and angle `atan2` of the current finger vector |
| TouchControl.ThresholdData | src/services/touchController/touchController.ts:147-170 | a START payload exists exactly for one or two touches (VOID carries none); its origin is the mean of the recorded positions and its drag is zero |
| TouchControl.ReleaseSignals | src/services/touchController/touchController.ts:184-195 | the release signals close whatever the controller had open: the bracket automaton ends Closed; two signals for an unclassified sequence, at most one otherwise |
| TouchControl.ReleaseIsOnePair | src/services/touchController/touchController.ts:184-195 | an unclassified release emits exactly START and END of TAP/UNDO/REDO with no data; otherwise only the open gesture's END |
| TouchControl.DetectStep | src/services/touchController/touchController.ts:137-172 | each changed touch extends the signals of n crossings to n + 1 if it crosses, else keeps them |
| TouchControl.TouchController.constructor | src/services/touchController/touchController.ts:57-69 | empty map and callbacks, NONE, no payload, count 0 |
| TouchControl.TouchController.On | src/services/touchController/touchController.ts:101-103 | appends the callback |
| TouchControl.TouchController.Off | src/services/touchController/touchController.ts:105-110 | removes the first registration only, if any |
| TouchControl.TouchController.IsCurrentEventDetected | src/services/touchController/touchController.ts:262-264 | true exactly when the gesture is not NONE |
| TouchControl.TouchController.Broadcast | src/services/touchController/touchController.ts:329-336 | NONE/VOID: nothing changes; else `lastData` := data and each callback is called once, in order |
| TouchControl.TouchController.SetEventType | src/services/touchController/touchController.ts:318-323 | END with the old payload, then START; keeps the trace well bracketed |
| TouchControl.TouchController.TriggerUpdate | src/services/touchController/touchController.ts:325-327 | one UPDATE broadcast; keeps the trace well bracketed |
| TouchControl.TouchController.TriggerZoom | src/services/touchController/touchController.ts:338-346 | switches to SCALE with the zoom payload, then updates with it |
| TouchControl.TouchController.Destroy | src/services/touchController/touchController.ts:362-363 | no callbacks remain |
| TouchControl.TouchController.Centroid | src/services/touchController/touchController.ts:157-162 | the accumulating loop computes the mean of the recorded positions |
| TouchControl.TouchController.TouchStart | src/services/touchController/touchController.ts:119-129 | ignored while a gesture is detected; otherwise records every changed touch and the touch count |
| TouchControl.TouchController.UpdateCurrentEvent | src/services/touchController/touchController.ts:266-316 | broadcasts UPDATE with the drag or pinch payload when one exists, else nothing |
| TouchControl.TouchController.CheckThreshold | src/services/touchController/touchController.ts:142-170 | a crossing touch calls `setEventType` with the classified kind and centroid payload; others change nothing |
| TouchControl.TouchController.TouchMove | src/services/touchController/touchController.ts:131-173 | detected: the UPDATE above; idle: the signals of all threshold crossings among the changed touches |
| TouchControl.TouchController.DetectGesture | src/services/touchController/touchController.ts:137-172 | the backward loop emits `Restarts` for the number of crossings and ends in that state |
| TouchControl.TouchController.TouchEnd | src/services/touchController/touchController.ts:175-198 | forgets lifted touches; on the last one emits the release signals and returns to NONE with count 0 |
| TouchControl.TouchController.MouseDown | src/services/touchController/touchController.ts:201-215 | switches to DRAG anchored at the press point |
| TouchControl.TouchController.MouseMove | src/services/touchController/touchController.ts:217-234 | ends a SCALE; moves a DRAG's drag vector to the cursor; otherwise nothing |
| TouchControl.TouchController.MouseUp | src/services/touchController/touchController.ts:236-239 | closes the open gesture and returns to NONE |
| TouchControl.TouchController.Wheel | src/services/touchController/touchController.ts:241-260 | opens a SCALE at the cursor unless one is open, then subtracts the delta from its drag and updates |
| Shortcuts.Known | src/services/shortcut/shortcut.ts:24 | only redo, undo, delete, cut, copy and paste are known names |
| Shortcuts.Satisfies | src/services/shortcut/shortcut.ts:64-71 | a carried property is satisfied; without Option held, or for a property other than ctrlKey, satisfied exactly when carried |
| Shortcuts.Matches | src/services/shortcut/shortcut.ts:62-71 | without Option held, a specification matches exactly when the event carries every listed property |
| Shortcuts.PreventsDefault | src/services/shortcut/shortcut.ts:79-84 | every name but `delete`, and any key without a target name, cancels the default; on INPUT/TEXTAREA it is kept exactly for `delete` |
| Shortcuts.FirstMatchFrom | src/services/shortcut/shortcut.ts:61-87 | the result matches and no earlier entry does; none means no entry matches |
| Shortcuts.SpecPasses | src/services/shortcut/shortcut.ts:62-71 | the flag loop passes exactly when every listed property is satisfied |
| Shortcuts.Shortcut.constructor | src/services/shortcut/shortcut.ts:2-3 | no listeners, Option not held |
| Shortcuts.Shortcut.On | src/services/shortcut/shortcut.ts:23-40 | unknown name: error, nothing registered; known: appended to that name's list (created if absent), others unchanged |
| Shortcuts.Shortcut.Unsubscribe | src/services/shortcut/shortcut.ts:33-39 | removes the first registration of the listener under its name only |
| Shortcuts.Shortcut.OnKeyUp | src/services/shortcut/shortcut.ts:46-50 | releasing code 91 clears the Option flag; other keys keep it |
| Shortcuts.Shortcut.OnKeyDown | src/services/shortcut/shortcut.ts:56-88 | code 91 sets the flag; the first matching entry fires all its listeners in order and decides `preventDefault`; no match: nothing |
| Shortcuts.KnownNames | src/services/shortcut/shortcut.ts:101-132 | the known names are exactly redo, undo, delete, cut, copy and paste; `zoomin` and `zoomout` are not |
| Shortcuts.MatchIsUnique | src/services/shortcut/shortcut.ts:101-132 | no event matches two entries |
| Shortcuts.FirstMatchIsTheMatch | src/services/shortcut/shortcut.ts:61-87 | an entry matches exactly when it is the one that fires |
| Shortcuts.OptionStandsInForCtrl | src/services/shortcut/shortcut.ts:64-71 | with Option held each entry matches exactly as it would with Control pressed |
| Shortcuts.DeleteMatchesAnyBackspace | src/services/shortcut/shortcut.ts:117-119 | `delete` fires exactly for key code 8, whatever the modifiers |
| Shortcuts.PlainKeysOnlyDelete | src/services/shortcut/shortcut.ts:101-132 | without Control or Option only `delete` can fire |
| Shortcuts.DefaultKeptOnlyForTextDeletion | src/services/shortcut/shortcut.ts:79-84 | a firing key keeps the default action exactly for backspace on INPUT or TEXTAREA |
| Shortcuts.UnsubscribeUndoesOn | src/services/shortcut/shortcut.ts:27-39 | subscribing a new listener and unsubscribing it leaves every name's listeners as before |
| TimeAgo.Classify | src/services/utils.ts:1-20 | every outcome other than "just now" has a count of at least one |
| TimeAgo.Timeago | src/services/utils.ts:1-20 | the sentence is non-empty and starts with a digit exactly when at least 2 s elapsed |
| TimeAgo.Digits | src/services/utils.ts:6 | non-empty decimal digits without a leading zero |
| TimeAgo.Suffix | src/services/utils.ts:6-19 | the text after the count starts with a non-digit |
| TimeAgo.Render | src/services/utils.ts:4-19 | the sentence starts with a digit exactly when it reports a count |
| TimeAgo.JustNowIff | src/services/utils.ts:2-4 | "just now" exactly when less than 2 s elapsed, future timestamps included |
| TimeAgo.BucketBounds | src/services/utils.ts:5-19 | elapsed time lies in the bucket's [lower, next lower) range and the count is it in units rounded down |
| TimeAgo.CountRanges | src/services/utils.ts:5-19 | seconds 2..59, minutes 1..59, hours 1..23, days 1..29, months 1..12, years ≥ 1 |
| TimeAgo.UnitMonotone | src/services/utils.ts:3-19 | an older timestamp never shows a smaller unit |
| TimeAgo.CountMonotone | src/services/utils.ts:3-19 | within a unit an older timestamp never shows a smaller count |
| TimeAgo.ClassifyOfUnits | src/services/utils.ts:5-19 | n whole units back, inside the unit's bucket, reads as n of that unit |
| TimeAgo.DigitsRoundTrip | src/services/utils.ts:6 | decimal notation reads back as the number |
| TimeAgo.PluralMarker | src/services/utils.ts:11-19 | days, months and years end in "s ago" exactly when the count exceeds one |
| TimeAgo.RenderInjective | src/services/utils.ts:3-19 | different outcomes give different sentences |
| TimeAgo.TimeagoDistinguishes | src/services/utils.ts:1-20 | equal sentences mean the same bucket and count |
| TimeAgo.DigitPrefix | src/services/utils.ts:6 | a digit run followed by a non-digit splits one way only |
| TimeAgo.SuffixDeterminesUnit | src/services/utils.ts:6-19 | the text after the count determines the unit |

## Left out

- DOM wiring is not modelled:
  - listener registration and removal on the element and the window;
  - `blockEvent` (`stopPropagation`/`preventDefault` on touch and mouse events);
  - the `mousemove` listener added in `mousedown`;
  - the `Shortcut` constructor's and `destroy`'s window listeners.
  - Handlers take the fields they read (`changedTouches`, `touches`, `pageX/Y`, `deltaX/Y`, `keyCode`, the target's `nodeName`) as parameters.
- Subscriber callbacks and shortcut listeners are opaque identities. A call into one is recorded (`invoked`, `fired`), and its
  effects are not modelled. Re-entrant changes to the callback or listener lists during a broadcast are not modelled.
- `Math.atan2` is a function-valued parameter.
- Coordinates are mathematical reals: floating-point rounding of the means, midpoints and ratios is not modelled.
- `Date.now()` is the parameter `now`. Times are integer milliseconds, so `Math.floor(gap / unit)` is exact integer division.
  JavaScript's exponent notation for counts of 10^21 or more is not modelled.
- `TouchControl.UpdateDefined`: a SCALE update requires the two start points to differ. The source divides by their taxicab
  distance and would produce `Infinity` or `NaN`.
- `TouchControl.TouchController.TouchMove`: a pointer that is not tracked is a precondition (DRAG/SCALE updates and the
  threshold test). The source would throw a `TypeError` on `undefined.clientX`.
- `Shortcuts.Shortcut.Unsubscribe`: the name's list must exist. It always does for an unsubscriber returned by `On`, and the
  source would throw otherwise.
- `TouchControl.TouchController.MouseMove`, `TouchControl.TouchController.Wheel`: the source updates `lastData.drag` in place.
  Subscribers that kept the earlier payload object see it change; the model has value semantics, so earlier signals keep
  their payloads.
- `Shortcuts.Known`: the source tests `!EVENTS[eventName]`, which also accepts names inherited from `Object.prototype`
  (`toString`, `constructor`, …). The model accepts only the six table entries.
- `gestureTransitionTime` and `shortcutListeners` are declared in the source and never used.
- The constructor's registration of `zoomin`/`zoomout` with a `Shortcut` is not modelled as a call. `Shortcuts.KnownNames`
  proves both names unknown, so `on` would throw for each.

## Behaviour worth knowing

- `gestureMaxTouches` is the touch count at the latest accepted `touchstart`, not the maximum count seen.
- The idle branch of `touchmove` keeps looping after the first crossing. A second crossing touch in the same event closes
  and reopens the gesture (`Restarts`).
- A release with a count of 0 or 3+ gives REDO.
- START of a SCALE from touches carries no `scale`, and its drag is zero.
