# PixelLight torch session, modelled in Dafny

PixelLight turns a phone's flashlight on at a chosen brightness through the
Camera2 API. The `TorchSession` singleton does the work. It finds the first
camera that reports a maximum flashlight brightness. It opens that camera and
configures a capture session on it. Each time the desired brightness changes
while the session is ready, it issues one capture request at that brightness.
It closes everything again when the brightness goes to zero or any step
fails. Its state is OFF, ACTIVATING or ON. It broadcasts
each state change and each error to its listeners. It also keeps a
*primary service owner* informed whether that owner must stay alive and
whether it must stay in the foreground. The owner must stay alive while the
torch is not off or while *additional owners* are attached. It must stay in
the foreground only while the torch is not off. `TorchError` names the kinds of
failure, maps Camera2 access-failure reasons onto them, and picks the message
resource shown for each kind.

The project has four modules:

- `TorchErrors` (`torch_error.dfy`) models the error enum, `toUiString`,
  `fromException` and the device-error table from `onCameraError`. Each
  mapping is proved against its reverse table.
- `TorchModel` (`torch_model.dfy`) describes the session as a value,
  `Torch`, and every source method as a transition function. Each function
  returns the new value and the ordered list of calls made into owners,
  listeners and the camera driver (`Effect`). The session invariant `Inv`
  states which field combinations can occur, and every public operation and
  callback preserves it.
- `TorchProperties` (`torch_properties.dfy`) holds the behavioural
  properties:
  - what each operation does to each kind of effect;
  - every failure is reported exactly once and ends with the torch off;
  - close is idempotent;
  - requests made while ACTIVATING coalesce into one capture;
  - the ownership rules;
  - discovery picks the first usable camera;
  - the lifecycle scenarios.
- `TorchSessions` (`torch_session.dfy`) is the session itself, a class whose
  fields are the session's fields. Its methods update them step by step, as
  the Java methods do. The camera list is searched by a loop. A ghost `log`
  records every effect. Each method is proved to leave `Snapshot()` and `log`
  exactly as its `TorchModel` function says. The public methods also keep
  `Valid()`.

The driver's answers are parameters of the operations. These answers are:
whether the camera list could be read, what each camera reports as its
maximum level, and whether an open, a session creation or a capture was
accepted or refused with a reason. Camera and session objects are opaque
handles. The log records an `Open`, `CreateSession` or `Capture` call only
when the driver accepted it. A refused call is still made by the code, which
then catches the exception; the model records the error report that follows
instead.

Five behaviours of the code are easy to miss; the model follows the code:

- Only an upper bound is applied to a requested brightness:
  `Math.min(brightness, maxBrightness)`. A negative request stays negative.
  `ServiceHelper.java:138-140` replaces negative values with a stored
  preference before calling the session.
- Closing a torch that is already off still broadcasts the current state
  (`CloseWhenOffIsQuiet`). It is silent only towards the driver and the owner.
- `refreshCameras` runs discovery only while no camera id is cached. Once a
  camera is known, it just re-broadcasts the state.
- Removing the primary owner is refused while additional owners remain.
  The other refusal, for a torch that is on, checks the *current
  brightness*, not the state. So removal is allowed while the torch is
  ACTIVATING. After that, a later close would dereference the missing
  primary owner. `PrimaryLeavesWhileActivating` states this.
- Before a camera is discovered the maximum is -1. Every request is then
  capped to at most -1. Even a request for 0 becomes `min(0, -1) == -1`, so
  it does not close. Every such request goes on to open with no camera id
  (`TorchSession.java:276-284`, `:311`). `NoRequestBeforeDiscovery` shows
  that the model permits no request before discovery.

The Java code dereferences the primary owner, the camera id and the
session without checks. Opening asserts that the torch is OFF, and the
capture step asserts that it is ACTIVATING or ON. The preconditions `CanClose`, `CanOpen`, `CanCapture`,
`CanSet` and `CanUnregister` exclude the inputs on which the code would throw
or trip one of those asserts. `CanCapture` also asks for a session even when the level
is unchanged and the code would not touch it; every caller provides one.
Callbacks that arrive in a state the code does not expect are excluded by
preconditions too; an example is a camera delivered after the torch was
closed. Java asserts are disabled on Android, so nothing checks such a
callback there.

The Android SDK values of `CameraAccessException`'s reasons (1 to 5) and of
`CameraDevice.StateCallback`'s error codes (1 to 5) are not in the
repository. The model uses those values, but only their distinctness matters.

## Model

| member | source | states |
|---|---|---|
| TorchErrors.AllErrorsComplete | app/src/main/java/com/chiller3/pixellight/TorchError.java:13-23 | every error kind is one of the ten declared kinds, listed once each |
| TorchErrors.ToUiString | app/src/main/java/com/chiller3/pixellight/TorchError.java:25-38 | each kind gets the message resource that names it: reading the resource back gives the kind |
| TorchErrors.ToUiStringInjective | app/src/main/java/com/chiller3/pixellight/TorchError.java:25-38 | two kinds with the same message resource are the same kind |
| TorchErrors.ToUiStringDistinctOverAll | app/src/main/java/com/chiller3/pixellight/TorchError.java:25-38 | the ten kinds use ten different message resources |
| TorchErrors.FromException | app/src/main/java/com/chiller3/pixellight/TorchError.java:40-49 | a failed access never maps to NO_PERMISSION, SERVICE_ERROR, SESSION_ERROR or NO_VALID_CAMERA; the result is UNKNOWN exactly for reasons outside the five known ones |
| TorchErrors.AccessReasonOf | app/src/main/java/com/chiller3/pixellight/TorchError.java:40-49 | the reverse table only yields known access-failure reasons |
| TorchErrors.FromExceptionInverse | app/src/main/java/com/chiller3/pixellight/TorchError.java:40-49 | a reason maps to a kind other than UNKNOWN if and only if the reverse table gives back that reason for that kind |
| TorchErrors.FromDeviceError | app/src/main/java/com/chiller3/pixellight/TorchSession.java:370-383 | a device error never maps to NO_PERMISSION, DISCONNECTED, SESSION_ERROR or NO_VALID_CAMERA; the result is UNKNOWN exactly for codes outside the five known ones |
| TorchErrors.DeviceErrorCodeOf | app/src/main/java/com/chiller3/pixellight/TorchSession.java:370-383 | the reverse table only yields known device error codes |
| TorchErrors.FromDeviceErrorInverse | app/src/main/java/com/chiller3/pixellight/TorchSession.java:370-383 | a code maps to a kind other than UNKNOWN if and only if the reverse table gives back that code for that kind |
| TorchErrors.ErrorKindSources | app/src/main/java/com/chiller3/pixellight/TorchError.java:40-49 | NO_PERMISSION, SESSION_ERROR and NO_VALID_CAMERA arise from neither table; exactly BLOCKED_BY_POLICY, DEVICE_ERROR, IN_USE, MAXIMUM_IN_USE and UNKNOWN arise from both |
| TorchModel.InitialInv | app/src/main/java/com/chiller3/pixellight/TorchSession.java:77-83 | the freshly created session (OFF, no camera, maximum -1, brightness 0) satisfies the session invariant |
| TorchModel.Min | app/src/main/java/com/chiller3/pixellight/TorchSession.java:276 | the cap is the smaller of the two values |
| TorchModel.Inv | app/src/main/java/com/chiller3/pixellight/TorchSession.java:77-83 | the session invariant; a nonzero current brightness implies the torch is ON with a session, and no camera or session is held before a camera is known |
| TorchModel.IsOwnerNeeded | app/src/main/java/com/chiller3/pixellight/TorchSession.java:211-213 | when the primary owner is not needed, a valid session holds no camera or session and the brightness is 0 |
| TorchModel.NotifyOwnerNeeded | app/src/main/java/com/chiller3/pixellight/TorchSession.java:215-218 | one call to the primary owner: the service is needed, and the foreground exactly while the torch is not off |
| TorchModel.TryNotifyOwnerNotNeeded | app/src/main/java/com/chiller3/pixellight/TorchSession.java:220-228 | at most one call, made exactly when the owner is no longer needed, and then it is (false, false) to the primary owner |
| TorchModel.NotifyTorchState | app/src/main/java/com/chiller3/pixellight/TorchSession.java:429-435 | one (current, maximum) broadcast to the whole listener set, made exactly when a camera is known |
| TorchModel.CloseCamera | app/src/main/java/com/chiller3/pixellight/TorchSession.java:322-342 | closing leaves the torch OFF at brightness 0 with no camera and no session, changes nothing else, and keeps the invariant |
| TorchModel.OnError | app/src/main/java/com/chiller3/pixellight/TorchSession.java:293-301 | the error goes to every listener first; an OFF torch is otherwise untouched; any other state is closed; setup, owners and listeners are kept; the invariant is kept |
| TorchModel.PerformCapture | app/src/main/java/com/chiller3/pixellight/TorchSession.java:402-427 | the torch ends ON at the desired brightness, or OFF with everything released exactly when a changed level's capture is refused; it never stays ACTIVATING |
| TorchModel.OpenCamera | app/src/main/java/com/chiller3/pixellight/TorchSession.java:304-319 | the primary owner first hears (needed, foreground); an accepted open leaves the torch ACTIVATING after one open call; a refused or denied open leaves it off with nothing held |
| TorchModel.SetTorchBrightness | app/src/main/java/com/chiller3/pixellight/TorchSession.java:274-290 | the desired brightness is the request capped at the maximum; a zero cap ends OFF with nothing held; the invariant is kept |
| TorchModel.OnCameraOpened | app/src/main/java/com/chiller3/pixellight/TorchSession.java:345-360 | an accepted camera is kept and one session is requested on it; a failed request ends OFF and closes that camera; the invariant is kept |
| TorchModel.OnCameraClosed | app/src/main/java/com/chiller3/pixellight/TorchSession.java:363-367 | a disconnect is reported first as DISCONNECTED and ends OFF, keeping the invariant |
| TorchModel.OnCameraError | app/src/main/java/com/chiller3/pixellight/TorchSession.java:370-383 | a device error is reported first with its mapped kind and ends OFF, keeping the invariant |
| TorchModel.OnSessionConfigured | app/src/main/java/com/chiller3/pixellight/TorchSession.java:386-392 | when the torch lights, it is at the desired brightness on the configured session; the invariant is kept |
| TorchModel.OnSessionConfigureFailed | app/src/main/java/com/chiller3/pixellight/TorchSession.java:395-399 | a failed configuration is reported first as SESSION_ERROR and ends OFF, keeping the invariant |
| TorchModel.FirstCandidate | app/src/main/java/com/chiller3/pixellight/TorchSession.java:237-243 | the index of the first camera whose maximum-level query is not empty: every earlier camera has none |
| TorchModel.UpdateCameraDetails | app/src/main/java/com/chiller3/pixellight/TorchSession.java:231-262 | a cached camera short-circuits with no effect; success exactly when a camera id ends cached; failure leaves the torch OFF with setup unchanged; owners and listeners are kept; the invariant is kept |
| TorchModel.RegisterTorchListener | app/src/main/java/com/chiller3/pixellight/TorchSession.java:146-156 | the listener set gains the listener; owners are kept; the invariant is kept |
| TorchModel.UnregisterTorchListener | app/src/main/java/com/chiller3/pixellight/TorchSession.java:159-165 | only the listener set changes, the listener is no longer in it, and nothing is called |
| TorchModel.RefreshCameras | app/src/main/java/com/chiller3/pixellight/TorchSession.java:265-271 | listeners are kept and the invariant is kept |
| TorchModel.RegisterServiceOwner | app/src/main/java/com/chiller3/pixellight/TorchSession.java:168-179 | the first owner becomes primary silently; later owners join the additional owners and never replace the primary; nothing else changes; the invariant is kept |
| TorchModel.UnregisterServiceOwner | app/src/main/java/com/chiller3/pixellight/TorchSession.java:182-204 | removing the primary owner is refused if and only if the brightness is nonzero (torch still on) or additional owners remain, and succeeds otherwise by clearing it; removing any other owner drops it from the additional owners; the invariant is kept |
| TorchProperties.CloseCameraView | app/src/main/java/com/chiller3/pixellight/TorchSession.java:322-342 | what any one view shows of a close, in order: release, state broadcast, owner call |
| TorchProperties.CloseCameraEffects | app/src/main/java/com/chiller3/pixellight/TorchSession.java:322-342 | a close releases the held camera once, broadcasts (0, max) once a camera is known, tells the primary owner (false, false) exactly when the torch was not off and no additional owner remains, and reports no error and captures nothing |
| TorchProperties.CloseWhenOffIsQuiet | app/src/main/java/com/chiller3/pixellight/TorchSession.java:322-342 | closing an OFF torch changes nothing and only re-broadcasts the state |
| TorchProperties.CloseCameraIdempotent | app/src/main/java/com/chiller3/pixellight/TorchSession.java:322-342 | a second close changes nothing, closes no camera and calls no owner |
| TorchProperties.OnErrorView | app/src/main/java/com/chiller3/pixellight/TorchSession.java:293-301 | what any one view shows of an error: the report, then what a close shows if the torch was not off |
| TorchProperties.OnErrorReportsOnce | app/src/main/java/com/chiller3/pixellight/TorchSession.java:293-301 | an error is reported to the listeners exactly once, nothing is captured, and the torch ends OFF at brightness 0 |
| TorchProperties.OnErrorReleases | app/src/main/java/com/chiller3/pixellight/TorchSession.java:293-301 | an error closes the held camera and broadcasts (0, max) exactly when the torch was not off |
| TorchProperties.OpenFailureReportsOnce | app/src/main/java/com/chiller3/pixellight/TorchSession.java:304-319 | a refused open reports the mapped kind once (NO_PERMISSION for a security denial), ends OFF at brightness 0 and never captures |
| TorchProperties.CaptureFailureReportsOnce | app/src/main/java/com/chiller3/pixellight/TorchSession.java:402-427 | a refused capture reports the mapped kind once, ends OFF at brightness 0 and logs no accepted capture |
| TorchProperties.CreateSessionFailureReportsOnce | app/src/main/java/com/chiller3/pixellight/TorchSession.java:345-360 | a refused session creation reports once and closes the camera just delivered |
| TorchProperties.CallbackFailuresReportOnce | app/src/main/java/com/chiller3/pixellight/TorchSession.java:363-399 | a disconnect, a device error and a failed configuration each report their kind exactly once and end OFF |
| TorchProperties.DiscoveryFailureReportsOnce | app/src/main/java/com/chiller3/pixellight/TorchSession.java:231-262 | failed discovery reports exactly once (NO_VALID_CAMERA when no camera has a level, the mapped access failure when the list or the first failing level query cannot be read), leaves the camera unknown and broadcasts no state |
| TorchProperties.DiscoveryFindsNothing | app/src/main/java/com/chiller3/pixellight/TorchSession.java:236-259 | an unreadable camera list fails discovery with its access failure reported once; a list where no camera has a level fails it with NO_VALID_CAMERA reported once |
| TorchProperties.DiscoveryLevelQueryFails | app/src/main/java/com/chiller3/pixellight/TorchSession.java:236-259 | a level query that fails before any camera has a level fails discovery, keeps the camera unknown and reports that failure once |
| TorchProperties.DiscoverySuccessIsSilent | app/src/main/java/com/chiller3/pixellight/TorchSession.java:231-252 | successful discovery makes no call; a newly found camera changes only the id, the maximum and the current brightness (to 0) |
| TorchProperties.RefreshCamerasBroadcast | app/src/main/java/com/chiller3/pixellight/TorchSession.java:265-271 | refresh broadcasts (current, maximum) to every listener as its only call exactly when discovery succeeds, and just that when a camera is already known; otherwise no state is broadcast and the failure is reported once |
| TorchProperties.SetZeroTurnsOff | app/src/main/java/com/chiller3/pixellight/TorchSession.java:274-282 | a request capped to zero closes from any state, ending OFF with nothing held; it captures nothing; it tells the primary owner (false, false) exactly when the torch was not off and no additional owner remains |
| TorchProperties.NoRequestBeforeDiscovery | app/src/main/java/com/chiller3/pixellight/TorchSession.java:274-284 | before discovery every request is capped to at most -1, and a request for 0 to exactly -1, so none closes; the model permits none, because each would open with no camera id |
| TorchProperties.SetNonzeroByState | app/src/main/java/com/chiller3/pixellight/TorchSession.java:283-289 | a nonzero request opens from OFF (owner told first), only records the level while ACTIVATING, and captures at once when ON |
| TorchProperties.SetWhileOnCaptures | app/src/main/java/com/chiller3/pixellight/TorchSession.java:283-289 | while ON, a changed level issues one capture at it and broadcasts it; an unchanged level does nothing |
| TorchProperties.PerformCaptureIdempotent | app/src/main/java/com/chiller3/pixellight/TorchSession.java:402-427 | once lit, running the capture step again changes nothing and emits nothing |
| TorchProperties.RequestsWhileActivating | app/src/main/java/com/chiller3/pixellight/TorchSession.java:283-289 | requests made while ACTIVATING leave the torch ACTIVATING with the same maximum |
| TorchProperties.RequestsWhileActivatingCoalesce | app/src/main/java/com/chiller3/pixellight/TorchSession.java:283-289 | requests made while ACTIVATING emit nothing and only the last one is kept as desired |
| TorchProperties.CoalescedRequestsCaptureOnce | app/src/main/java/com/chiller3/pixellight/TorchSession.java:386-427 | however many requests arrive while ACTIVATING, opening and configuring issues exactly one capture, at the last requested level |
| TorchProperties.SecondOwnerNeverReplacesPrimary | app/src/main/java/com/chiller3/pixellight/TorchSession.java:168-179 | a later owner joins the additional owners and the primary hears (needed, not off) |
| TorchProperties.ServiceOwnerIsUnique | app/src/main/java/com/chiller3/pixellight/TorchSession.java:168-209 | at most one owner is the service owner; registering makes an owner the service owner exactly when there was no primary owner or it already was one, and never takes the role from another |
| TorchProperties.UnregisterAdditionalOwner | app/src/main/java/com/chiller3/pixellight/TorchSession.java:194-203 | removing a non-primary owner succeeds and tells the primary (false, false) exactly when the torch is off and no additional owner remains |
| TorchProperties.PrimaryLeavesWhileActivating | app/src/main/java/com/chiller3/pixellight/TorchSession.java:183-193 | the primary owner may leave while ACTIVATING; the invariant holds afterwards, but a close, or a request for zero, is then no longer permitted |
| TorchProperties.KeepAliveScenario | app/src/main/java/com/chiller3/pixellight/TorchSession.java:168-228 | an additional owner keeps an idle primary needed, and releases it when it leaves |
| TorchProperties.DiscoveryPicksFirst | app/src/main/java/com/chiller3/pixellight/TorchSession.java:236-251 | discovery caches the first camera reporting a maximum, with that maximum and brightness 0, and emits nothing |
| TorchProperties.DiscoveryIdempotent | app/src/main/java/com/chiller3/pixellight/TorchSession.java:231-234 | after a successful discovery the camera is known, and discovery succeeds again with no change and no effect, whatever the driver would answer |
| TorchProperties.RegisterListenerSnapshot | app/src/main/java/com/chiller3/pixellight/TorchSession.java:146-156 | after a successful discovery, the only call is the current state sent to the new listener alone; otherwise no state is broadcast and the failure is reported exactly once |
| TorchProperties.DiscoveryScenario | app/src/main/java/com/chiller3/pixellight/TorchSession.java:236-251 | of a camera without a level and one with maximum 5, the second is chosen |
| TorchProperties.Ready | app/src/main/java/com/chiller3/pixellight/TorchSession.java:77-83 | a discovered idle session with one primary owner satisfies the invariant and is OFF |
| TorchProperties.OnOffScenario | app/src/main/java/com/chiller3/pixellight/TorchSession.java:274-427 | turning on at 3 opens, configures and captures in order and broadcasts (3, 5); turning off closes the camera, broadcasts (0, 5) and releases the primary owner |
| TorchProperties.OpenDeniedScenario | app/src/main/java/com/chiller3/pixellight/TorchSession.java:304-319 | a permission denial on open reports NO_PERMISSION, returns the torch to OFF and captures nothing |
| TorchSessions.TorchSession.constructor | app/src/main/java/com/chiller3/pixellight/TorchSession.java:77-83 | a new session holds the initial state, has made no call, and is valid |
| TorchSessions.TorchSession.RegisterTorchListener | app/src/main/java/com/chiller3/pixellight/TorchSession.java:146-156 | the fields and calls are those of TorchModel.RegisterTorchListener; validity is kept |
| TorchSessions.TorchSession.UnregisterTorchListener | app/src/main/java/com/chiller3/pixellight/TorchSession.java:159-165 | the fields and calls are those of TorchModel.UnregisterTorchListener; validity is kept |
| TorchSessions.TorchSession.RegisterServiceOwner | app/src/main/java/com/chiller3/pixellight/TorchSession.java:168-179 | the fields and calls are those of TorchModel.RegisterServiceOwner; validity is kept |
| TorchSessions.TorchSession.UnregisterServiceOwner | app/src/main/java/com/chiller3/pixellight/TorchSession.java:182-204 | returns the refusal reason exactly when TorchModel.UnregisterServiceOwner refuses, and then changes and calls nothing; otherwise its fields and calls; validity is kept |
| TorchSessions.TorchSession.IsServiceOwner | app/src/main/java/com/chiller3/pixellight/TorchSession.java:207-209 | true exactly when the owner is the primary owner |
| TorchSessions.TorchSession.IsOwnerNeeded | app/src/main/java/com/chiller3/pixellight/TorchSession.java:211-213 | true exactly when the torch is not off or additional owners exist |
| TorchSessions.TorchSession.NotifyOwnerNeeded | app/src/main/java/com/chiller3/pixellight/TorchSession.java:215-218 | tells the primary owner (needed, not off) and changes no field |
| TorchSessions.TorchSession.TryNotifyOwnerNotNeeded | app/src/main/java/com/chiller3/pixellight/TorchSession.java:220-228 | tells the primary owner (false, false) only when it is no longer needed, and changes no field |
| TorchSessions.TorchSession.UpdateCameraDetails | app/src/main/java/com/chiller3/pixellight/TorchSession.java:231-262 | the loop over the camera list returns, sets and calls exactly what TorchModel.UpdateCameraDetails gives |
| TorchSessions.TorchSession.RefreshCameras | app/src/main/java/com/chiller3/pixellight/TorchSession.java:265-271 | the fields and calls are those of TorchModel.RefreshCameras; validity is kept |
| TorchSessions.TorchSession.SetTorchBrightness | app/src/main/java/com/chiller3/pixellight/TorchSession.java:274-290 | the fields and calls are those of TorchModel.SetTorchBrightness; validity is kept |
| TorchSessions.TorchSession.OnError | app/src/main/java/com/chiller3/pixellight/TorchSession.java:293-301 | the fields and calls are those of TorchModel.OnError |
| TorchSessions.TorchSession.OpenCamera | app/src/main/java/com/chiller3/pixellight/TorchSession.java:304-319 | the fields and calls are those of TorchModel.OpenCamera |
| TorchSessions.TorchSession.CloseCamera | app/src/main/java/com/chiller3/pixellight/TorchSession.java:322-342 | the fields and calls are those of TorchModel.CloseCamera |
| TorchSessions.TorchSession.OnCameraOpened | app/src/main/java/com/chiller3/pixellight/TorchSession.java:345-360 | the fields and calls are those of TorchModel.OnCameraOpened; validity is kept |
| TorchSessions.TorchSession.OnCameraClosed | app/src/main/java/com/chiller3/pixellight/TorchSession.java:363-367 | the fields and calls are those of TorchModel.OnCameraClosed; validity is kept |
| TorchSessions.TorchSession.OnCameraError | app/src/main/java/com/chiller3/pixellight/TorchSession.java:370-383 | the fields and calls are those of TorchModel.OnCameraError; validity is kept |
| TorchSessions.TorchSession.OnSessionConfigured | app/src/main/java/com/chiller3/pixellight/TorchSession.java:386-392 | the fields and calls are those of TorchModel.OnSessionConfigured; validity is kept |
| TorchSessions.TorchSession.OnSessionConfigureFailed | app/src/main/java/com/chiller3/pixellight/TorchSession.java:395-399 | the fields and calls are those of TorchModel.OnSessionConfigureFailed; validity is kept |
| TorchSessions.TorchSession.PerformCapture | app/src/main/java/com/chiller3/pixellight/TorchSession.java:402-427 | the fields and calls are those of TorchModel.PerformCapture |
| TorchSessions.TorchSession.NotifyTorchState | app/src/main/java/com/chiller3/pixellight/TorchSession.java:429-435 | broadcasts (current, maximum) to every listener once a camera is known, and changes no field |
| TorchSessions.TorchSession.NotifyTorchError | app/src/main/java/com/chiller3/pixellight/TorchSession.java:437-441 | reports the error kind to every listener and changes no field |

## Left out

- `getInstance` and its singleton lock, the constructor's camera thread and handler, and `finalize` are not modelled. The session is a single object built by the class constructor.
- Threading is not modelled. Camera callbacks are posted back to the main thread and run one at a time, so each callback is a separate method call. Nothing interleaves within one.
- Building the capture request is reduced to one `Capture(level)` effect per request issued. This covers the template, the surface target, the flash mode and the experimental brightness key. The `SurfaceTexture` and `Surface` objects are not modelled.
- Camera characteristics are reduced to the one value the session reads: the maximum flashlight level, or its absence. The camera id list becomes a `CameraQuery` parameter. `ExperimentalKeys.java` is not part of this model.
- Logging is not modelled.
- The `Listener` and `ServiceOwner` interfaces are recorded as `Effect`s in the ghost log, not called. The services that implement them are not part of this model. This includes `ServiceHelper.java`, `TorchService.java` and `TorchTileService.java`.
- Broadcasts go to the listener set as one effect, because the Java code iterates a `HashSet` in an unspecified order. The order in which individual listeners are called is not modelled.
- TorchSessions.TorchSession.OnCameraClosed, TorchSessions.TorchSession.OnCameraError and TorchSessions.TorchSession.OnSessionConfigureFailed: these drop the camera or session argument. The Java code only logs it.
- TorchSessions.TorchSession.UnregisterServiceOwner: a refusal is returned as a value, not thrown as an `IllegalStateException`. The caller sees the same two refusal reasons.
- Registering a listener twice is a set insertion that changes nothing; the warning the Java code logs is not modelled. Registering an additional owner twice also leaves the set unchanged, but as in the Java code the primary owner is told again that it is needed.
- Java `int` overflow is not modelled. Every brightness value comes from the driver or the caller, and no arithmetic is done on them.
