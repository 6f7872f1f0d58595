/**
 * What the torch session promises across its transitions: which owner,
 * listener and driver calls each operation makes, that every failure is
 * reported exactly once, that repeated requests coalesce, and the lifecycle
 * scenarios the session is built for.
 */
module TorchProperties {
  import opened Wrappers
  import opened TorchErrors
  import opened TorchModel

  // ---------------------------------------------------------------------------
  // Views of an effect trace

  /** The kinds of effect a trace can be viewed by. */
  datatype View = OwnerCalls | ErrorReports | StateReports | DriverCalls | Captures

  predicate Shows(view: View, e: Effect)
  {
    match view
    case OwnerCalls => e.OwnerNeeded?
    case ErrorReports => e.Error?
    case StateReports => e.StateChanged?
    case DriverCalls => e.Open? || e.CreateSession? || e.Capture? || e.Close?
    case Captures => e.Capture?
  }

  /** The effects of a trace that a view shows, in order. */
  function Select(view: View, effs: seq<Effect>): (r: seq<Effect>)
    ensures |r| <= |effs|
  {
    if effs == [] then []
    else (if Shows(view, effs[0]) then [effs[0]] else []) + Select(view, effs[1..])
  }

  lemma {:induction false} SelectAppend(view: View, a: seq<Effect>, b: seq<Effect>)
    ensures Select(view, a + b) == Select(view, a) + Select(view, b)
  {
    if a == [] {
      assert a + b == b;
    } else {
      var head := if Shows(view, a[0]) then [a[0]] else [];
      assert (a + b)[0] == a[0];
      assert (a + b)[1..] == a[1..] + b;
      assert Select(view, a + b) == head + Select(view, a[1..] + b);
      SelectAppend(view, a[1..], b);
      assert Select(view, a) == head + Select(view, a[1..]);
    }
  }

  lemma SelectOne(view: View, e: Effect)
    ensures Select(view, [e]) == if Shows(view, e) then [e] else []
  {
  }

  // ---------------------------------------------------------------------------
  // Closing

  /** The effects a close makes, in order: the release, the state broadcast and the owner call, each if made. */
  function CloseEffects(t: Torch): seq<Effect>
    requires CanClose(t)
  {
    (if t.camera.Some? then [Close(t.camera.value)] else []) +
    (if t.cameraId.Some? then [StateChanged(t.listeners, 0, t.maxBrightness)] else []) +
    (if t.state != Off && t.additionalOwners == {} then [OwnerNeeded(t.primaryOwner.value, false, false)] else [])
  }

  lemma CloseCameraMakesCloseEffects(t: Torch)
    requires CanClose(t)
    ensures CloseCamera(t).effects == CloseEffects(t)
  {
  }

  lemma SelectThree(view: View, a: seq<Effect>, b: seq<Effect>, c: seq<Effect>)
    ensures Select(view, a + b + c) == Select(view, a) + Select(view, b) + Select(view, c)
  {
    SelectAppend(view, a, b);
    SelectAppend(view, a + b, c);
  }

  /** What one view shows of a close. */
  lemma CloseCameraView(t: Torch, view: View)
    requires CanClose(t)
    ensures CloseCamera(t).effects == CloseEffects(t)
    ensures Select(view, CloseCamera(t).effects) ==
      (if t.camera.Some? && Shows(view, Close(t.camera.value)) then [Close(t.camera.value)] else []) +
      (if t.cameraId.Some? && Shows(view, StateChanged(t.listeners, 0, t.maxBrightness))
       then [StateChanged(t.listeners, 0, t.maxBrightness)] else []) +
      (if t.state != Off && t.additionalOwners == {} && Shows(view, OwnerNeeded(t.primaryOwner.value, false, false))
       then [OwnerNeeded(t.primaryOwner.value, false, false)] else [])
  {
    var released := if t.camera.Some? then [Close(t.camera.value)] else [];
    var state := if t.cameraId.Some? then [StateChanged(t.listeners, 0, t.maxBrightness)] else [];
    var owner := if t.state != Off && t.additionalOwners == {} then [OwnerNeeded(t.primaryOwner.value, false, false)] else [];
    CloseCameraMakesCloseEffects(t);
    SelectThree(view, released, state, owner);
    if t.camera.Some? { SelectOne(view, Close(t.camera.value)); }
    SelectOne(view, StateChanged(t.listeners, 0, t.maxBrightness));
    if t.primaryOwner.Some? { SelectOne(view, OwnerNeeded(t.primaryOwner.value, false, false)); }
  }

  /**
   * Closing releases the camera if one is held, broadcasts the new state once a
   * camera is known, and tells the primary owner (false, false) exactly when the
   * torch was not off and no additional owner keeps it needed.
   */
  lemma {:induction false} CloseCameraEffects(t: Torch)
    requires CanClose(t)
    ensures var r := CloseCamera(t);
      && Select(DriverCalls, r.effects) == (if t.camera.Some? then [Close(t.camera.value)] else [])
      && Select(StateReports, r.effects) == (if t.cameraId.Some? then [StateChanged(t.listeners, 0, t.maxBrightness)] else [])
      && Select(OwnerCalls, r.effects) ==
           (if t.state != Off && t.additionalOwners == {} then [OwnerNeeded(t.primaryOwner.value, false, false)] else [])
      && Select(ErrorReports, r.effects) == []
      && Select(Captures, r.effects) == []
  {
    CloseCameraView(t, DriverCalls);
    CloseCameraView(t, StateReports);
    CloseCameraView(t, OwnerCalls);
    CloseCameraView(t, ErrorReports);
    CloseCameraView(t, Captures);
  }

  /** Closing a torch that is already off changes nothing and only re-broadcasts the state. */
  lemma CloseWhenOffIsQuiet(t: Torch)
    requires Inv(t) && t.state == Off
    ensures CloseCamera(t) == Step(t, NotifyTorchState(t))
  {
  }

  /** Closing twice in a row: the second close finds the torch off and neither closes a camera nor calls an owner. */
  lemma {:induction false} CloseCameraIdempotent(t: Torch)
    requires CanClose(t)
    ensures var first := CloseCamera(t).after;
      && CloseCamera(first).after == first
      && Select(DriverCalls, CloseCamera(first).effects) == []
      && Select(OwnerCalls, CloseCamera(first).effects) == []
  {
    CloseCameraEffects(CloseCamera(t).after);
  }

  // ---------------------------------------------------------------------------
  // Every failure is reported exactly once

  /** What one view shows of an error: the report, then what closing shows if the torch was not off. */
  lemma OnErrorView(t: Torch, kind: TorchError, view: View)
    requires CanClose(t)
    ensures Select(view, OnError(t, kind).effects) ==
      (if Shows(view, Error(t.listeners, kind)) then [Error(t.listeners, kind)] else []) +
      (if t.state != Off then Select(view, CloseCamera(t).effects) else [])
  {
    SelectOne(view, Error(t.listeners, kind));
    if t.state != Off {
      SelectAppend(view, [Error(t.listeners, kind)], CloseCamera(t).effects);
    } else {
      assert [Error(t.listeners, kind)] + [] == [Error(t.listeners, kind)];
    }
  }

  /** An error reaches the listeners once, the session ends up off, and no capture is issued. */
  lemma {:induction false} OnErrorReportsOnce(t: Torch, kind: TorchError)
    requires CanClose(t)
    ensures var r := OnError(t, kind);
      && Select(ErrorReports, r.effects) == [Error(t.listeners, kind)]
      && Select(Captures, r.effects) == []
      && r.after.state == Off
      && (Inv(t) ==> r.after.curBrightness == 0)
  {
    OnErrorView(t, kind, ErrorReports);
    OnErrorView(t, kind, Captures);
    if t.state != Off {
      CloseCameraEffects(t);
    }
  }

  /** After reporting, an error releases the camera and broadcasts the state only if the torch was not off. */
  lemma {:induction false} OnErrorReleases(t: Torch, kind: TorchError)
    requires CanClose(t)
    ensures var r := OnError(t, kind);
      && Select(DriverCalls, r.effects) == (if t.state != Off && t.camera.Some? then [Close(t.camera.value)] else [])
      && Select(StateReports, r.effects) ==
           (if t.state != Off && t.cameraId.Some? then [StateChanged(t.listeners, 0, t.maxBrightness)] else [])
  {
    OnErrorView(t, kind, DriverCalls);
    OnErrorView(t, kind, StateReports);
    if t.state != Off {
      CloseCameraEffects(t);
    }
  }

  /** A refused open reports the mapped kind once, ends off, and never captures. */
  lemma {:induction false} OpenFailureReportsOnce(t: Torch, open: OpenOutcome)
    requires CanOpen(t) && !open.OpenAccepted?
    ensures var r := OpenCamera(t, open);
      && Select(ErrorReports, r.effects) ==
           [Error(t.listeners, if open.OpenSecurityDenial? then NoPermission else FromException(open.reason))]
      && r.after.state == Off && r.after.curBrightness == 0
      && Select(Captures, r.effects) == []
  {
    var activating := t.(state := Activating);
    var kind := if open.OpenSecurityDenial? then NoPermission else FromException(open.reason);
    var needed := NotifyOwnerNeeded(activating);
    var failed := OnError(activating, kind);
    OnErrorReportsOnce(activating, kind);
    SelectAppend(ErrorReports, needed, failed.effects);
    SelectAppend(Captures, needed, failed.effects);
    SelectOne(ErrorReports, needed[0]);
    SelectOne(Captures, needed[0]);
  }

  /** A failed capture reports the mapped kind once, ends off with brightness zero, and issues no capture. */
  lemma {:induction false} CaptureFailureReportsOnce(t: Torch, reason: int)
    requires CanCapture(t, AccessFailure(reason)) && t.curBrightness != t.desiredBrightness
    ensures var r := PerformCapture(t, AccessFailure(reason));
      && Select(ErrorReports, r.effects) == [Error(t.listeners, FromException(reason))]
      && r.after.state == Off && r.after.curBrightness == 0
      && Select(Captures, r.effects) == []
  {
    OnErrorReportsOnce(t.(state := On, curBrightness := t.desiredBrightness), FromException(reason));
  }

  /** A failed session creation reports once and closes the camera that was just delivered. */
  lemma {:induction false} CreateSessionFailureReportsOnce(t: Torch, camera: CameraHandle, reason: int)
    requires t.state == Activating && OwnerReachable(t)
    ensures var r := OnCameraOpened(t, camera, AccessFailure(reason));
      && Select(ErrorReports, r.effects) == [Error(t.listeners, FromException(reason))]
      && Select(DriverCalls, r.effects) == [Close(camera)]
      && r.after.state == Off && r.after.camera.None?
  {
    OnErrorReportsOnce(t.(camera := Some(camera)), FromException(reason));
    OnErrorReleases(t.(camera := Some(camera)), FromException(reason));
  }

  /**
   * Disconnection, a device error and a failed session configuration each
   * report their kind once and leave the session off.
   */
  lemma {:induction false} CallbackFailuresReportOnce(t: Torch, code: int)
    requires CanClose(t)
    ensures Select(ErrorReports, OnCameraClosed(t).effects) == [Error(t.listeners, Disconnected)]
    ensures Select(ErrorReports, OnCameraError(t, code).effects) == [Error(t.listeners, FromDeviceError(code))]
    ensures Select(ErrorReports, OnSessionConfigureFailed(t).effects) == [Error(t.listeners, SessionError)]
    ensures OnCameraClosed(t).after.state == Off && OnCameraError(t, code).after.state == Off
    ensures OnSessionConfigureFailed(t).after.state == Off
  {
    OnErrorReportsOnce(t, Disconnected);
    OnErrorReportsOnce(t, FromDeviceError(code));
    OnErrorReportsOnce(t, SessionError);
  }

  /**
   * Discovery that finds nothing, or cannot query the driver, reports once,
   * leaves the camera unknown and broadcasts no state.
   */
  lemma {:induction false} DiscoveryFailureReportsOnce(t: Torch, query: CameraQuery)
    requires CanClose(t) && t.cameraId.None?
    requires !UpdateCameraDetails(t, query).found
    ensures var d := UpdateCameraDetails(t, query);
      && d.step.after.cameraId.None?
      && |Select(ErrorReports, d.step.effects)| == 1
      && Select(StateReports, d.step.effects) == []
      && (query.IdList? && (forall j :: 0 <= j < |query.entries| ==> query.entries[j].level.NoLevel?) ==>
            Select(ErrorReports, d.step.effects) == [Error(t.listeners, NoValidCamera)])
      && (query.IdListFailure? ==> Select(ErrorReports, d.step.effects) == [Error(t.listeners, FromException(query.reason))])
      && (query.IdList? && FirstCandidate(query.entries) < |query.entries| ==>
            var failed := query.entries[FirstCandidate(query.entries)].level;
            failed.LevelQueryFailure? &&
            Select(ErrorReports, d.step.effects) == [Error(t.listeners, FromException(failed.reason))])
  {
    var kind := match query
      case IdListFailure(reason) => FromException(reason)
      case IdList(entries) =>
        var k := FirstCandidate(entries);
        if k == |entries| then NoValidCamera else FromException(entries[k].level.reason);
    assert UpdateCameraDetails(t, query).step == OnError(t, kind);
    OnErrorReportsOnce(t, kind);
    OnErrorReleases(t, kind);
  }

  /**
   * Discovery fails when the camera list cannot be read, reporting that access
   * failure, and when no camera reports a level, reporting NO_VALID_CAMERA.
   */
  lemma {:induction false} DiscoveryFindsNothing(t: Torch, query: CameraQuery)
    requires CanClose(t) && t.cameraId.None?
    ensures var d := UpdateCameraDetails(t, query);
      && (query.IdListFailure? ==>
            !d.found && Select(ErrorReports, d.step.effects) == [Error(t.listeners, FromException(query.reason))])
      && (query.IdList? && (forall j :: 0 <= j < |query.entries| ==> query.entries[j].level.NoLevel?) ==>
            !d.found && Select(ErrorReports, d.step.effects) == [Error(t.listeners, NoValidCamera)])
  {
    match query
    case IdListFailure(reason) =>
      OnErrorReportsOnce(t, FromException(reason));
    case IdList(entries) =>
      OnErrorReportsOnce(t, NoValidCamera);
  }

  /**
   * A level query that fails before any camera has reported a level ends
   * discovery: the camera stays unknown and that query's failure is reported once.
   */
  lemma {:induction false} DiscoveryLevelQueryFails(t: Torch, entries: seq<CameraEntry>, k: nat, reason: int)
    requires CanClose(t) && t.cameraId.None?
    requires k < |entries| && entries[k].level == LevelQueryFailure(reason)
    requires forall j :: 0 <= j < k ==> entries[j].level.NoLevel?
    ensures var d := UpdateCameraDetails(t, IdList(entries));
      && !d.found && d.step.after.cameraId.None?
      && Select(ErrorReports, d.step.effects) == [Error(t.listeners, FromException(reason))]
  {
    assert FirstCandidate(entries) == k;
    OnErrorReportsOnce(t, FromException(reason));
  }

  /** Once discovery succeeds it has made no call, and the cached camera starts at brightness zero unless it was already known. */
  lemma {:induction false} DiscoverySuccessIsSilent(t: Torch, query: CameraQuery)
    requires t.cameraId.Some? || CanClose(t)
    requires UpdateCameraDetails(t, query).found
    ensures var d := UpdateCameraDetails(t, query);
      && d.step.effects == []
      && d.step.after.cameraId.Some?
      && (t.cameraId.None? ==> d.step.after == t.(cameraId := d.step.after.cameraId,
                                                   maxBrightness := d.step.after.maxBrightness,
                                                   curBrightness := 0))
  {
    if t.cameraId.None? {
      match query
      case IdListFailure(reason) =>
      case IdList(entries) =>
        var k := FirstCandidate(entries);
        if k < |entries| && entries[k].level.LevelQueryFailure? {
          OnErrorReportsOnce(t, FromException(entries[k].level.reason));
        } else if k == |entries| {
          OnErrorReportsOnce(t, NoValidCamera);
        }
    }
  }

  /**
   * Refreshing broadcasts the current state once to every listener exactly
   * when discovery succeeds, and then that is its only call; otherwise no state
   * is broadcast and the failure is reported once.
   */
  lemma {:induction false} RefreshCamerasBroadcast(t: Torch, query: CameraQuery)
    requires t.cameraId.Some? || CanClose(t)
    ensures var d := UpdateCameraDetails(t, query);
      var r := RefreshCameras(t, query);
      && r.after == d.step.after
      && (d.found ==> r.effects == [StateChanged(t.listeners, r.after.curBrightness, r.after.maxBrightness)])
      && (t.cameraId.Some? ==> r == Step(t, [StateChanged(t.listeners, t.curBrightness, t.maxBrightness)]))
      && (!d.found ==> Select(StateReports, r.effects) == [] && |Select(ErrorReports, r.effects)| == 1)
  {
    if UpdateCameraDetails(t, query).found {
      DiscoverySuccessIsSilent(t, query);
    } else {
      DiscoveryFailureReportsOnce(t, query);
    }
  }

  // ---------------------------------------------------------------------------
  // Brightness requests

  /**
   * Before discovery the maximum is -1, so every request is capped to at most
   * -1; even a request for 0 does not close. Each goes on to open with no
   * camera id, which is not permitted.
   */
  lemma NoRequestBeforeDiscovery(t: Torch, brightness: int, capture: AccessOutcome)
    requires Inv(t) && t.cameraId.None?
    ensures Min(brightness, t.maxBrightness) <= -1
    ensures Min(0, t.maxBrightness) == -1
    ensures !CanSet(t, brightness, capture)
  {
  }

  /** A request capped to zero closes from any state, telling the owner only if the torch was on its way up. */
  lemma {:induction false} SetZeroTurnsOff(t: Torch, brightness: int, open: OpenOutcome, capture: AccessOutcome)
    requires CanSet(t, brightness, capture) && Min(brightness, t.maxBrightness) == 0
    ensures var r := SetTorchBrightness(t, brightness, open, capture);
      && r.after.state == Off && r.after.curBrightness == 0 && r.after.camera.None? && r.after.session.None?
      && Select(OwnerCalls, r.effects) ==
           (if t.state != Off && t.additionalOwners == {} then [OwnerNeeded(t.primaryOwner.value, false, false)] else [])
      && Select(Captures, r.effects) == []
  {
    var desired := t.(desiredBrightness := 0);
    CloseCameraEffects(desired);
  }

  /**
   * A nonzero request acts by state: from OFF the primary owner is told it is
   * needed in the foreground before the camera is opened; while ACTIVATING only
   * the desired brightness changes; when ON the capture step runs at once.
   */
  lemma SetNonzeroByState(t: Torch, brightness: int, open: OpenOutcome, capture: AccessOutcome)
    requires CanSet(t, brightness, capture)
    requires Min(brightness, t.maxBrightness) != 0
    ensures var d := Min(brightness, t.maxBrightness);
      var r := SetTorchBrightness(t, brightness, open, capture);
      && (t.state == Off && open.OpenAccepted? ==>
            r == Step(t.(state := Activating, desiredBrightness := d),
                      [OwnerNeeded(t.primaryOwner.value, true, true), Open(t.cameraId.value)]))
      && (t.state == Off ==> r.effects[0] == OwnerNeeded(t.primaryOwner.value, true, true))
      && (t.state == Activating ==> r == Step(t.(desiredBrightness := d), []))
      && (t.state == On ==> r == PerformCapture(t.(desiredBrightness := d), capture))
  {
  }

  /** While lit, a request issues one capture at the new level and broadcasts it, or nothing if the level is unchanged. */
  lemma {:induction false} SetWhileOnCaptures(t: Torch, brightness: int)
    requires Inv(t) && t.state == On && Min(brightness, t.maxBrightness) != 0
    ensures var d := Min(brightness, t.maxBrightness);
      var r := SetTorchBrightness(t, brightness, OpenAccepted, Accepted);
      && r.after == t.(curBrightness := d, desiredBrightness := d)
      && Select(Captures, r.effects) == (if d == t.curBrightness then [] else [Capture(d)])
      && Select(StateReports, r.effects) == (if d == t.curBrightness then [] else [StateChanged(t.listeners, d, t.maxBrightness)])
  {
    var d := Min(brightness, t.maxBrightness);
    if d != t.curBrightness {
      var lit := t.(curBrightness := d, desiredBrightness := d);
      var report := StateChanged(t.listeners, d, t.maxBrightness);
      SelectAppend(Captures, [Capture(d)], [report]);
      SelectAppend(StateReports, [Capture(d)], [report]);
      SelectOne(Captures, Capture(d));
      SelectOne(Captures, report);
      SelectOne(StateReports, Capture(d));
      SelectOne(StateReports, report);
    }
  }

  // ---------------------------------------------------------------------------
  // The capture step

  /** The capture step lights the torch; a second run with nothing changed does and emits nothing. */
  lemma PerformCaptureIdempotent(t: Torch, first: AccessOutcome, second: AccessOutcome)
    requires CanCapture(t, first)
    requires PerformCapture(t, first).after.state == On
    ensures var lit := PerformCapture(t, first).after;
      && lit.curBrightness == t.desiredBrightness
      && CanCapture(lit, second)
      && PerformCapture(lit, second) == Step(lit, [])
  {
  }

  /** Applies brightness requests one after another while the camera is still being opened. */
  function RequestsWhileActivating(t: Torch, requests: seq<int>): (r: Step)
    requires t.state == Activating
    requires forall i :: 0 <= i < |requests| ==> Min(requests[i], t.maxBrightness) != 0
    ensures r.after.state == Activating && r.after.maxBrightness == t.maxBrightness
    decreases |requests|
  {
    if requests == [] then Step(t, [])
    else
      var first := SetTorchBrightness(t, requests[0], OpenAccepted, Accepted);
      var rest := RequestsWhileActivating(first.after, requests[1..]);
      Step(rest.after, first.effects + rest.effects)
  }

  /** Requests made while ACTIVATING emit nothing and only the last one is kept. */
  lemma {:induction false} RequestsWhileActivatingCoalesce(t: Torch, requests: seq<int>)
    requires t.state == Activating && requests != []
    requires forall i :: 0 <= i < |requests| ==> Min(requests[i], t.maxBrightness) != 0
    ensures RequestsWhileActivating(t, requests) ==
      Step(t.(desiredBrightness := Min(requests[|requests| - 1], t.maxBrightness)), [])
    decreases |requests|
  {
    var first := SetTorchBrightness(t, requests[0], OpenAccepted, Accepted);
    if |requests| > 1 {
      RequestsWhileActivatingCoalesce(first.after, requests[1..]);
      assert requests[1..][|requests[1..]| - 1] == requests[|requests| - 1];
    }
  }

  /**
   * However many requests arrive while ACTIVATING, once the camera opens and
   * its session is configured exactly one capture is issued, at the last
   * requested level.
   */
  lemma {:induction false} CoalescedRequestsCaptureOnce(
    t: Torch, requests: seq<int>, camera: CameraHandle, session: SessionHandle)
    requires Inv(t) && t.state == Activating && requests != []
    requires forall i :: 0 <= i < |requests| ==> Min(requests[i], t.maxBrightness) != 0
    ensures var waiting := RequestsWhileActivating(t, requests);
      var delivered := OnCameraOpened(waiting.after, camera, Accepted);
      var configured := OnSessionConfigured(delivered.after, session, Accepted);
      var last := Min(requests[|requests| - 1], t.maxBrightness);
      && waiting.effects == []
      && Select(Captures, delivered.effects + configured.effects) == [Capture(last)]
      && configured.after.state == On && configured.after.curBrightness == last
  {
    RequestsWhileActivatingCoalesce(t, requests);
    var waiting := RequestsWhileActivating(t, requests);
    var delivered := OnCameraOpened(waiting.after, camera, Accepted);
    var configured := OnSessionConfigured(delivered.after, session, Accepted);
    var lit := delivered.after.(session := Some(session), state := On, curBrightness := delivered.after.desiredBrightness);
    var report := StateChanged(lit.listeners, lit.curBrightness, lit.maxBrightness);
    assert delivered.effects + configured.effects == [CreateSession(camera)] + ([Capture(lit.curBrightness)] + [report]);
    SelectAppend(Captures, [Capture(lit.curBrightness)], [report]);
    SelectAppend(Captures, [CreateSession(camera)], [Capture(lit.curBrightness)] + [report]);
    SelectOne(Captures, CreateSession(camera));
    SelectOne(Captures, Capture(lit.curBrightness));
    SelectOne(Captures, report);
  }

  // ---------------------------------------------------------------------------
  // Owners

  /** A later owner never replaces the primary one; it joins the additional owners and the primary hears (true, not off). */
  lemma SecondOwnerNeverReplacesPrimary(t: Torch, owner: Owner)
    requires t.primaryOwner.Some?
    ensures RegisterServiceOwner(t, owner) ==
      Step(t.(additionalOwners := t.additionalOwners + {owner}),
           [OwnerNeeded(t.primaryOwner.value, true, t.state != Off)])
  {
  }

  /**
   * At most one owner is the service owner; registering makes an owner the
   * service owner exactly when no primary owner existed or it already was it.
   */
  lemma ServiceOwnerIsUnique(t: Torch, o: Owner, p: Owner)
    ensures IsServiceOwner(t, o) && IsServiceOwner(t, p) ==> o == p
    ensures IsServiceOwner(RegisterServiceOwner(t, o).after, o) <==> t.primaryOwner.None? || t.primaryOwner == Some(o)
    ensures IsServiceOwner(t, p) ==> IsServiceOwner(RegisterServiceOwner(t, o).after, p)
  {
  }

  /**
   * Removing an additional owner (absent or not) tells the primary owner
   * (false, false) exactly when the torch is off and no additional owner remains.
   */
  lemma UnregisterAdditionalOwner(t: Torch, owner: Owner)
    requires t.primaryOwner.Some? && t.primaryOwner != Some(owner)
    ensures UnregisterServiceOwner(t, owner).Success?
    ensures UnregisterServiceOwner(t, owner).value.effects ==
      if t.state == Off && t.additionalOwners - {owner} == {} then [OwnerNeeded(t.primaryOwner.value, false, false)] else []
  {
  }

  /**
   * The primary owner may leave while the torch is ACTIVATING, because the
   * check is on the brightness, not the state. Closing is then no longer
   * permitted: it would call a primary owner that is gone.
   */
  lemma PrimaryLeavesWhileActivating(t: Torch, owner: Owner)
    requires Inv(t) && t.state == Activating
    requires t.primaryOwner == Some(owner) && t.additionalOwners == {}
    ensures UnregisterServiceOwner(t, owner).Success?
    ensures var u := UnregisterServiceOwner(t, owner).value.after;
      Inv(u) && !CanClose(u) && (u.maxBrightness >= 0 ==> !CanSet(u, 0, Accepted))
  {
  }

  /** Keep-alive: an additional owner keeps an idle primary alive and releases it on leaving. */
  lemma KeepAliveScenario(t: Torch, primary: Owner, extra: Owner)
    requires Inv(t) && t.state == Off && t.primaryOwner == Some(primary) && t.additionalOwners == {}
    requires extra != primary
    ensures var joined := RegisterServiceOwner(t, extra);
      && joined.effects == [OwnerNeeded(primary, true, false)]
      && UnregisterServiceOwner(joined.after, extra) == Success(Step(t, [OwnerNeeded(primary, false, false)]))
  {
    var joined := RegisterServiceOwner(t, extra);
    assert joined.after.(additionalOwners := joined.after.additionalOwners - {extra}) == t;
  }

  // ---------------------------------------------------------------------------
  // Discovery and listeners

  /** Discovery picks the first camera that reports a maximum brightness, caching it with the level zeroed. */
  lemma {:induction false} DiscoveryPicksFirst(t: Torch, entries: seq<CameraEntry>, k: nat, max: int)
    requires CanClose(t) && t.cameraId.None?
    requires k < |entries| && entries[k].level == Level(max)
    requires forall j :: 0 <= j < k ==> entries[j].level.NoLevel?
    ensures UpdateCameraDetails(t, IdList(entries)) ==
      Discovery(true, Step(t.(cameraId := Some(entries[k].id), maxBrightness := max, curBrightness := 0), []))
  {
  }

  /** Once a camera is known, discovery does nothing and reports success, whatever the driver would say. */
  lemma DiscoveryIdempotent(t: Torch, query: CameraQuery, again: CameraQuery)
    requires t.cameraId.Some? || CanClose(t)
    requires UpdateCameraDetails(t, query).found
    ensures var u := UpdateCameraDetails(t, query).step.after;
      && u.cameraId.Some?
      && (CanClose(t) ==> CanClose(u))
      && UpdateCameraDetails(u, again) == Discovery(true, Step(u, []))
  {
    var u := UpdateCameraDetails(t, query).step.after;
    assert u.cameraId.Some?;
  }

  /**
   * A new listener hears the current state on its own exactly when discovery
   * succeeds, and that is the only call; otherwise no state is broadcast at
   * all and the failure is reported once.
   */
  lemma {:induction false} RegisterListenerSnapshot(t: Torch, listener: Listener, query: CameraQuery)
    requires t.cameraId.Some? || CanClose(t)
    ensures var added := t.(listeners := t.listeners + {listener});
      var d := UpdateCameraDetails(added, query);
      var r := RegisterTorchListener(t, listener, query);
      && (d.found ==> r.effects == [StateChanged({listener}, r.after.curBrightness, r.after.maxBrightness)])
      && (!d.found ==> Select(StateReports, r.effects) == [] && |Select(ErrorReports, r.effects)| == 1)
  {
    var added := t.(listeners := t.listeners + {listener});
    if UpdateCameraDetails(added, query).found {
      DiscoverySuccessIsSilent(added, query);
    } else {
      DiscoveryFailureReportsOnce(added, query);
    }
  }

  /** Scenario: of two cameras only the second reports a maximum of 5; it is the one chosen. */
  lemma DiscoveryScenario()
    ensures var entries := [CameraEntry("cam0", NoLevel), CameraEntry("cam1", Level(5))];
      UpdateCameraDetails(Initial, IdList(entries)) ==
        Discovery(true, Step(Initial.(cameraId := Some("cam1"), maxBrightness := 5), []))
  {
    var entries := [CameraEntry("cam0", NoLevel), CameraEntry("cam1", Level(5))];
    DiscoveryPicksFirst(Initial, entries, 1, 5);
  }

  // ---------------------------------------------------------------------------
  // Lifecycle scenarios

  /** A discovered, idle session with one primary owner and a set of listeners. */
  function Ready(primary: Owner, listeners: set<Listener>): (t: Torch)
    ensures Inv(t) && t.state == Off
  {
    Initial.(cameraId := Some("cam1"), maxBrightness := 5, primaryOwner := Some(primary), listeners := listeners)
  }

  /**
   * Scenario: turning the torch on at 3 opens, configures and captures in order
   * and broadcasts (3, 5); turning it off closes the camera, broadcasts (0, 5)
   * and releases the primary owner.
   */
  lemma OnOffScenario(primary: Owner, listeners: set<Listener>, camera: CameraHandle, session: SessionHandle)
    ensures var t := Ready(primary, listeners);
      var on := SetTorchBrightness(t, 3, OpenAccepted, Accepted);
      var delivered := OnCameraOpened(on.after, camera, Accepted);
      var lit := OnSessionConfigured(delivered.after, session, Accepted);
      var off := SetTorchBrightness(lit.after, 0, OpenAccepted, Accepted);
      && on.effects == [OwnerNeeded(primary, true, true), Open("cam1")]
      && delivered.effects == [CreateSession(camera)]
      && lit.effects == [Capture(3), StateChanged(listeners, 3, 5)]
      && lit.after.state == On && lit.after.curBrightness == 3
      && off.effects == [Close(camera), StateChanged(listeners, 0, 5), OwnerNeeded(primary, false, false)]
      && off.after == t
  {
  }

  /** Scenario: the open is refused for lack of permission; NO_PERMISSION is reported, the torch returns off, nothing is captured. */
  lemma OpenDeniedScenario(primary: Owner, listeners: set<Listener>)
    ensures var t := Ready(primary, listeners);
      var r := SetTorchBrightness(t, 3, OpenSecurityDenial, Accepted);
      && r.effects == [OwnerNeeded(primary, true, true), Error(listeners, NoPermission),
                       StateChanged(listeners, 0, 5), OwnerNeeded(primary, false, false)]
      && r.after == t.(desiredBrightness := 3)
  {
  }
}
