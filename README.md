# Particle device setup: SIM fetch step and device-info sheet rules

A Dafny model of two small pieces of the Particle Android app.

- **The SIM fetch setup step** (`StepFetchFullSimData.doRunStep`). The step works on the shared
  setup context of a device-commissioning flow. If the target device's SIM record is already
  known, it returns at once. Otherwise it shows the global progress spinner, asks the cloud for
  the SIM record of the device's ICCID and stores it in `targetDevice.sim`, then hides the
  spinner in a `finally` block. The module `SimFetch` states the step as a function `RunStep` of
  the context and the cloud's answers. That function returns the ordered trace of spinner and
  cloud calls, the new SIM value and the outcome. Lemmas about `RunStep` cover the guard, the
  spinner bracket, the stored record, error propagation and idempotence. The method
  `StepFetchFullSimData.DoRunStep` runs on class objects for the context, the cloud client and
  the UI delegate. The cloud client and the UI delegate append every call to one shared ghost
  `CallLog`. The method is proved to leave the SIM, the outcome and the calls appended to that
  log, in the order they were made, equal to `RunStep`. Its `modifies` clause lets it write only
  `targetDevice.sim`, the spinner and the call log.
- **The device-info bottom sheet** (`DeviceInfoBottomSheetController`). The module
  `DeviceInfoSheet` holds the controller's decision rules:
  - the tap toggle between the expanded and the collapsed sheet;
  - the choice of status dot and status text;
  - the guard that writes the notes only when they changed;
  - the ping button's round trip.

  The module `SheetMutator` holds the per-view `Mutator`. It applies its ops in list order, and
  it clamps the new height to at least 1 and the new width to at least the view's minimum width.

The cloud client is a total function from ICCID to a record or an exception. The float product
`(initial * scale).toInt()` and the fade interpolator's curve are passed in as functions. Slide
offsets are exact reals. The device's notes may be null, because the SDK getter's type is not part
of this model; a null text shown in the notes field reads back as empty.

`doRunStep` catches nothing: its `try` has only a `finally`. So an exception from `getSim`, or
from the null assertion `iccid!!`, reaches the caller after the spinner is hidden. The model
returns such an exception as `Fail(error)`, and a normal return as `Pass`.

## Model

| member | source | states |
|---|---|---|
| `SimFetch.RunStep` | mesh/src/main/java/io/particle/mesh/setup/flow/setupsteps/StepFetchFullSimData.kt:15-27 | a SIM already known is never overwritten, and the step completes normally exactly when it leaves the SIM known |
| `SimFetch.GuardIsNoOp` | mesh/src/main/java/io/particle/mesh/setup/flow/setupsteps/StepFetchFullSimData.kt:16-18 | when `targetDevice.sim` is already set, the step makes no spinner call and no cloud call, leaves the SIM as it was and completes normally |
| `SimFetch.SpinnerBracketsEveryPath` | mesh/src/main/java/io/particle/mesh/setup/flow/setupsteps/StepFetchFullSimData.kt:20-26 | past the guard, on every path (stored, `getSim` threw, `iccid` null), the spinner calls are exactly `[true, false]`: the first event is `show(true)`, the last is `show(false)`, and there is one of each |
| `SimFetch.CloudCalledOnlyUnderSpinner` | mesh/src/main/java/io/particle/mesh/setup/flow/setupsteps/StepFetchFullSimData.kt:20-22 | the cloud is called once, with the context's ICCID, exactly when the SIM is unknown and the ICCID present, and never before the spinner is shown |
| `SimFetch.SuccessStoresCloudRecord` | mesh/src/main/java/io/particle/mesh/setup/flow/setupsteps/StepFetchFullSimData.kt:22-23 | the step completes normally iff the SIM was already known or the cloud returned a record; a record it stores is the cloud's record for `targetDevice.iccid` |
| `SimFetch.FailurePropagatesError` | mesh/src/main/java/io/particle/mesh/setup/flow/setupsteps/StepFetchFullSimData.kt:21-26 | when the step throws, `targetDevice.sim` stays null; a null ICCID surfaces as `IccidMissing`, and a cloud failure surfaces as that same cloud error, not swallowed |
| `SimFetch.RerunAfterSuccessIsNoOp` | mesh/src/main/java/io/particle/mesh/setup/flow/setupsteps/StepFetchFullSimData.kt:16-23 | after a run that completed normally, a second run is the guard's no-op: empty trace, same SIM, normal completion |
| `SimFetch.ParticleCloud.GetSim` | mesh/src/main/java/io/particle/mesh/setup/flow/setupsteps/StepFetchFullSimData.kt:22 | returns the cloud's answer for the ICCID and appends the call to the shared log |
| `SimFetch.FlowUiDelegate.ShowGlobalProgressSpinner` | mesh/src/main/java/io/particle/mesh/setup/flow/setupsteps/StepFetchFullSimData.kt:20-25 | the spinner shows the last value given (last call wins) and the call is appended to the shared log |
| `SimFetch.StepFetchFullSimData.DoRunStep` | mesh/src/main/java/io/particle/mesh/setup/flow/setupsteps/StepFetchFullSimData.kt:15-27 | the new `targetDevice.sim` and the outcome equal `RunStep` of the old context, and the shared log grows by exactly `RunStep`'s trace, so spinner and cloud calls happen in that order; the spinner ends hidden past the guard and is untouched at the guard; nothing but `targetDevice.sim` in the context can change |
| `DeviceInfoSheet.Toggled` | commonui/src/main/java/io/particle/commonui/DeviceInfoBottomSheetController.kt:69-78 | a tap never moves the sheet into or out of the expanded/collapsed pair: the result is expanded or collapsed iff the start state was |
| `DeviceInfoSheet.TapMovesOnlySettledStates` | commonui/src/main/java/io/particle/commonui/DeviceInfoBottomSheetController.kt:69-78 | a tap changes the sheet state iff it is expanded or collapsed; it collapses an expanded sheet and expands a collapsed one, and leaves dragging, settling, hidden and half-expanded alone |
| `DeviceInfoSheet.TapTwiceRestores` | commonui/src/main/java/io/particle/commonui/DeviceInfoBottomSheetController.kt:70-76 | two taps return the sheet to its starting state, for every state |
| `DeviceInfoSheet.DeviceInfoBottomSheetController.OnToggleTap` | commonui/src/main/java/io/particle/commonui/DeviceInfoBottomSheetController.kt:69-78 | the listener sets the behaviour's state to the toggled state of the old one |
| `DeviceInfoSheet.StatusColoredDot` | commonui/src/main/java/io/particle/commonui/DeviceInfoBottomSheetController.kt:179-193 | the four dots are selected by disjoint, exhaustive conditions: flashing iff `isFlashing`; tinker iff not flashing, online and running tinker; non-tinker iff not flashing, online and not tinker; offline iff not flashing and offline |
| `DeviceInfoSheet.StatusDotOnlineIffOnline` | commonui/src/main/java/io/particle/commonui/DeviceInfoBottomSheetController.kt:183-192 | an online dot variant is shown iff the device is online and not flashing |
| `DeviceInfoSheet.StatusText` | commonui/src/main/java/io/particle/commonui/DeviceInfoBottomSheetController.kt:167 | the label is "Online" iff online and "Offline" iff offline |
| `DeviceInfoSheet.DeviceInfoBottomSheetController.SetUpStatusDotAndText` | commonui/src/main/java/io/particle/commonui/DeviceInfoBottomSheetController.kt:166-177 | label and dot follow `isOnline` and the device's flags; the dot animation runs iff online |
| `DeviceInfoSheet.DeviceInfoBottomSheetController.UpdateDeviceDetails` | commonui/src/main/java/io/particle/commonui/DeviceInfoBottomSheetController.kt:86-100 | with a null device type the handler throws at `deviceType!!` and no modelled widget changes; otherwise the notes field shows the device's notes (empty for null), and the status follows `isConnected` |
| `DeviceInfoSheet.NotesToWrite` | commonui/src/main/java/io/particle/commonui/DeviceInfoBottomSheetController.kt:102-106 | no write iff the UI notes equal `device.notes` (never when those are null); otherwise the write carries the UI text, which differs from the device's notes |
| `DeviceInfoSheet.ResumeThenPauseWritesIffNotesNull` | commonui/src/main/java/io/particle/commonui/DeviceInfoBottomSheetController.kt:97-106 | after the resume handler fills the notes field and no edit follows, the pause schedules a write iff the device's notes are null, and that write is the empty text |
| `DeviceInfoSheet.DeviceInfoBottomSheetController.UpdateNotesIfNeeded` | commonui/src/main/java/io/particle/commonui/DeviceInfoBottomSheetController.kt:102-116 | schedules nothing when the notes are unchanged, and otherwise appends exactly one write of the UI text to the worker queue |
| `DeviceInfoSheet.DeviceInfoBottomSheetController.OnPingClicked` | commonui/src/main/java/io/particle/commonui/DeviceInfoBottomSheetController.kt:195-212 | afterwards the ping button is enabled and the progress bar hidden; the status is updated from the answer, and left unchanged when the ping threw |
| `SheetMutator.ScaleValue` | commonui/src/main/java/io/particle/commonui/DeviceInfoBottomSheetController.kt:264 | for a slide offset between 0 and 1, the scale chosen by `shownWhen` is between 0 and 1 too |
| `SheetMutator.ClampedWidth` | commonui/src/main/java/io/particle/commonui/DeviceInfoBottomSheetController.kt:279-280 | the new width is at least `minWidth` and at least the computed width, and equals one of them (their maximum) |
| `SheetMutator.ClampedHeight` | commonui/src/main/java/io/particle/commonui/DeviceInfoBottomSheetController.kt:287-288 | the new height is at least 1 and at least the computed height, and equals one of them (their maximum) |
| `SheetMutator.DoMutate` | commonui/src/main/java/io/particle/commonui/DeviceInfoBottomSheetController.kt:270-276 | an op changes only its own property: width only for a width resize, height only for a height resize, alpha only for a fade |
| `SheetMutator.ApplyOps` | commonui/src/main/java/io/particle/commonui/DeviceInfoBottomSheetController.kt:265-267 | after the op list runs in order, each property holds either its old value or its target, never anything else |
| `SheetMutator.ApplyOpsEffect` | commonui/src/main/java/io/particle/commonui/DeviceInfoBottomSheetController.kt:265-276 | after the op list runs, width, height and alpha each hold their target iff an op for them is in the list, and are untouched otherwise |
| `SheetMutator.ApplyOpsDependsOnlyOnOpSet` | commonui/src/main/java/io/particle/commonui/DeviceInfoBottomSheetController.kt:265-267 | two op lists with the same set of ops leave the view identical: order and repetition do not matter |
| `SheetMutator.SlideRespectsBounds` | commonui/src/main/java/io/particle/commonui/DeviceInfoBottomSheetController.kt:265-292 | with a resize op in the list, the height ends at `max(computed, 1)` (at least 1) and the width at `max(computed, minWidth)` (at least `minWidth`) |
| `SheetMutator.Mutator.constructor` | commonui/src/main/java/io/particle/commonui/DeviceInfoBottomSheetController.kt:247-255 | the remembered sizes start at `Int.MIN_VALUE`, and `shownWhen` defaults to expanded |
| `SheetMutator.Mutator.SetInitialValues` | commonui/src/main/java/io/particle/commonui/DeviceInfoBottomSheetController.kt:257-261 | remembers the measured height, width and minimum width |
| `SheetMutator.Mutator.TargetsFor` | commonui/src/main/java/io/particle/commonui/DeviceInfoBottomSheetController.kt:278-292 | every height a resize writes is at least 1, and every width at least `minWidth` |
| `SheetMutator.Mutator.Mutate` | commonui/src/main/java/io/particle/commonui/DeviceInfoBottomSheetController.kt:263-268 | the view's width, height and alpha end as `ApplyOps` of the mutator's ops, in list order, for the scale chosen by `shownWhen` |
| `SheetMutator.Mutator.DoMutateOp` | commonui/src/main/java/io/particle/commonui/DeviceInfoBottomSheetController.kt:270-276 | one op writes only its own property, with its target for the scale |
| `SheetMutator.Mutator.ResizeWidthTo` | commonui/src/main/java/io/particle/commonui/DeviceInfoBottomSheetController.kt:278-284 | the layout width becomes the clamped computed width, at least `minWidth` |
| `SheetMutator.Mutator.ResizeHeightTo` | commonui/src/main/java/io/particle/commonui/DeviceInfoBottomSheetController.kt:286-292 | the layout height becomes the clamped computed height, at least 1 |

## Left out

- Coroutine scheduling (`scopes.onMain`, `onWorker`, `withWorker`) is not modelled: each handler
  is one sequential method, and work handed to the worker context is recorded as a queued request.
- Cloud and device calls are foreign: `cloud.getSim`, `device.pingDevice`, `startStopSignaling`,
  `ParticleCloudSDK.getCloud()` and the `device.notes` setter. `getSim` is a total function from
  ICCID to result. A ping result is a parameter, with `None` when the call threw. The notes setter
  is a queued write, and its caught and logged failure is not modelled.
- `shouldDeviceSignal`, `onSignalSwitchChanged` and the `onStop` reset of the signal switch are
  left out: they only forward to the foreign `startStopSignaling` and log its failure.
- UpdateDeviceDetails: only the null `deviceType` abort is modelled. `device.id.toUpperCase()` and
  `format(device.lastHeard)` are assumed not to throw.
- The rename button, and the text fields of `updateDeviceDetails` other than the notes and the
  status, are left out. These are the product name and image, name, id, serial, OS version, and
  the `SimpleDateFormat` last-heard date.
- The `sheetBehaviorState` property is a plain pass-through to `behavior.state` and is not modelled.
- `initAnimations` is left out. It builds the fixed list of mutators for the sheet's views,
  installs the slide callback (`mutators.forEach { it.mutate(offset) }`) and the first-layout
  hook. Each mutator on its own is `Mutator.Mutate`.
- Float arithmetic is left out. The product `(initial * scale).toInt()` is a caller-supplied
  `toPixels`, and the `AccelerateInterpolator` curve a caller-supplied `interpolate`. Slide offsets
  and `1.0f - slideOffset` are exact reals, so float rounding is not captured.
- View animations and the lifecycle observer are left out. The status dot's fade animation is
  reduced to a running/not-running flag.
- Sheet states are a datatype, not the behaviour's integer constants.
- The other sub-contexts of the setup context, the flow manager, retry and abort policy, the
  recoverable/fatal outcome taxonomy, cancellation and input-entry validation are not part of this
  model. Their source is not available, and the step does not use them.
- `NameYourDeviceFragment`, `ScanCommissionerCodeFragment` (including its commented-out
  commissioner code) and `ControlPanelCongratsFragment` are left out. They are screen and
  navigation glue that forwards user input or pops the back stack after a delay.
