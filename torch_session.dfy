/**
 * The torch session object. Its fields are those of the session; its methods
 * change them step by step, as the operations and the camera callbacks do,
 * and record every call they make into owners, listeners and the camera
 * driver in a ghost log. Each method is proved to do exactly what the
 * corresponding TorchModel function describes, and the public operations and
 * callbacks to keep the session invariant.
 */
module TorchSessions {
  import opened Wrappers
  import opened TorchErrors
  import opened TorchModel

  class TorchSession {
    var state: State
    var cameraId: Option<CameraId>
    var maxBrightness: int
    var curBrightness: int
    var desiredBrightness: int
    var camera: Option<CameraHandle>
    var session: Option<SessionHandle>
    var primaryOwner: Option<Owner>
    var additionalOwners: set<Owner>
    var listeners: set<Listener>

    /** Every call the session has made into owners, listeners and the driver, oldest first. */
    ghost var log: seq<Effect>

    /** The fields as one value. */
    function Snapshot(): Torch
      reads this
    {
      Torch(state, cameraId, maxBrightness, curBrightness, desiredBrightness,
            camera, session, primaryOwner, additionalOwners, listeners)
    }

    ghost predicate Valid()
      reads this
    {
      Inv(Snapshot())
    }

    constructor ()
      ensures Snapshot() == Initial && log == []
      ensures Valid()
    {
      state := Off;
      cameraId := None;
      maxBrightness := -1;
      curBrightness := 0;
      desiredBrightness := 0;
      camera := None;
      session := None;
      primaryOwner := None;
      additionalOwners := {};
      listeners := {};
      log := [];
    }

    // -------------------------------------------------------------------------
    // Listeners

    method RegisterTorchListener(listener: Listener, query: CameraQuery)
      requires Valid()
      modifies this
      ensures Valid()
      ensures var r := TorchModel.RegisterTorchListener(old(Snapshot()), listener, query);
        Snapshot() == r.after && log == old(log) + r.effects
    {
      listeners := listeners + {listener};
      var found := UpdateCameraDetails(query);
      if found {
        log := log + [StateChanged({listener}, curBrightness, maxBrightness)];
      }
    }

    method UnregisterTorchListener(listener: Listener)
      requires Valid()
      modifies this
      ensures Valid()
      ensures var r := TorchModel.UnregisterTorchListener(old(Snapshot()), listener);
        Snapshot() == r.after && log == old(log) + r.effects
    {
      listeners := listeners - {listener};
    }

    // -------------------------------------------------------------------------
    // Owners

    method RegisterServiceOwner(owner: Owner)
      requires Valid()
      modifies this
      ensures Valid()
      ensures var r := TorchModel.RegisterServiceOwner(old(Snapshot()), owner);
        Snapshot() == r.after && log == old(log) + r.effects
    {
      if primaryOwner.None? {
        primaryOwner := Some(owner);
      } else {
        additionalOwners := additionalOwners + {owner};
        NotifyOwnerNeeded();
      }
    }

    /** Returns the reason the request was refused, if it was; a refused request changes nothing. */
    method UnregisterServiceOwner(owner: Owner) returns (refused: Option<IllegalState>)
      requires Valid() && CanUnregister(Snapshot(), owner)
      modifies this
      ensures Valid()
      ensures var r := TorchModel.UnregisterServiceOwner(old(Snapshot()), owner);
        && refused.Some? == r.Failure?
        && (r.Failure? ==> refused.value == r.error && Snapshot() == old(Snapshot()) && log == old(log))
        && (r.Success? ==> Snapshot() == r.value.after && log == old(log) + r.value.effects)
    {
      if primaryOwner == Some(owner) {
        if curBrightness != 0 {
          return Some(TorchStillOn);
        } else if additionalOwners != {} {
          return Some(AdditionalOwnersRemain);
        }
        primaryOwner := None;
      } else {
        additionalOwners := additionalOwners - {owner};
        TryNotifyOwnerNotNeeded();
      }
      return None;
    }

    method IsServiceOwner(owner: Owner) returns (isOwner: bool)
      ensures isOwner <==> TorchModel.IsServiceOwner(Snapshot(), owner)
    {
      isOwner := primaryOwner == Some(owner);
    }

    method IsOwnerNeeded() returns (needed: bool)
      ensures needed <==> TorchModel.IsOwnerNeeded(Snapshot())
    {
      needed := state != Off || additionalOwners != {};
    }

    method NotifyOwnerNeeded()
      requires primaryOwner.Some?
      modifies this`log
      ensures log == old(log) + TorchModel.NotifyOwnerNeeded(Snapshot())
    {
      log := log + [OwnerNeeded(primaryOwner.value, true, state != Off)];
    }

    method TryNotifyOwnerNotNeeded()
      requires TorchModel.IsOwnerNeeded(Snapshot()) || primaryOwner.Some?
      modifies this`log
      ensures log == old(log) + TorchModel.TryNotifyOwnerNotNeeded(Snapshot())
    {
      var needed := IsOwnerNeeded();
      if !needed {
        log := log + [OwnerNeeded(primaryOwner.value, false, false)];
      }
    }

    // -------------------------------------------------------------------------
    // Camera discovery

    /** Finds the torch camera unless it is already known; the loop walks the camera list in order. */
    method UpdateCameraDetails(query: CameraQuery) returns (found: bool)
      requires cameraId.Some? || CanClose(Snapshot())
      modifies this
      ensures var d := TorchModel.UpdateCameraDetails(old(Snapshot()), query);
        found == d.found && Snapshot() == d.step.after && log == old(log) + d.step.effects
    {
      if cameraId.Some? {
        return true;
      }
      match query {
        case IdListFailure(reason) =>
          OnError(FromException(reason));
          return false;
        case IdList(entries) =>
          var i := 0;
          while i < |entries|
            invariant 0 <= i <= FirstCandidate(entries)
            invariant Snapshot() == old(Snapshot()) && log == old(log)
          {
            match entries[i].level {
              case NoLevel =>
              case Level(max) =>
                cameraId := Some(entries[i].id);
                maxBrightness := max;
                curBrightness := 0;
                return true;
              case LevelQueryFailure(reason) =>
                OnError(FromException(reason));
                return false;
            }
            i := i + 1;
          }
          OnError(NoValidCamera);
          return false;
      }
    }

    method RefreshCameras(query: CameraQuery)
      requires Valid()
      modifies this
      ensures Valid()
      ensures var r := TorchModel.RefreshCameras(old(Snapshot()), query);
        Snapshot() == r.after && log == old(log) + r.effects
    {
      var found := UpdateCameraDetails(query);
      if found {
        log := log + [StateChanged(listeners, curBrightness, maxBrightness)];
      }
    }

    // -------------------------------------------------------------------------
    // Brightness requests, opening, closing and errors

    method SetTorchBrightness(brightness: int, open: OpenOutcome, capture: AccessOutcome)
      requires Valid() && CanSet(Snapshot(), brightness, capture)
      modifies this
      ensures Valid()
      ensures var r := TorchModel.SetTorchBrightness(old(Snapshot()), brightness, open, capture);
        Snapshot() == r.after && log == old(log) + r.effects
    {
      desiredBrightness := Min(brightness, maxBrightness);
      if desiredBrightness == 0 {
        CloseCamera();
        return;
      }
      match state {
        case Off => OpenCamera(open);
        case Activating =>
        case On => PerformCapture(capture);
      }
    }

    method OnError(kind: TorchError)
      requires CanClose(Snapshot())
      modifies this
      ensures var r := TorchModel.OnError(old(Snapshot()), kind);
        Snapshot() == r.after && log == old(log) + r.effects
    {
      NotifyTorchError(kind);
      if state != Off {
        CloseCamera();
      }
    }

    method OpenCamera(open: OpenOutcome)
      requires CanOpen(Snapshot())
      modifies this
      ensures var r := TorchModel.OpenCamera(old(Snapshot()), open);
        Snapshot() == r.after && log == old(log) + r.effects
    {
      state := Activating;
      NotifyOwnerNeeded();
      match open {
        case OpenAccepted =>
          log := log + [Open(cameraId.value)];
        case OpenAccessFailure(reason) =>
          OnError(FromException(reason));
        case OpenSecurityDenial =>
          OnError(NoPermission);
      }
    }

    method CloseCamera()
      requires CanClose(Snapshot())
      modifies this
      ensures var r := TorchModel.CloseCamera(old(Snapshot()));
        Snapshot() == r.after && log == old(log) + r.effects
    {
      session := None;
      if camera.Some? {
        log := log + [Close(camera.value)];
        camera := None;
      }
      var notifyOwner := state != Off;
      state := Off;
      curBrightness := 0;
      assert Snapshot() == TorchModel.CloseCamera(old(Snapshot())).after;
      NotifyTorchState();
      if notifyOwner {
        TryNotifyOwnerNotNeeded();
      }
    }

    // -------------------------------------------------------------------------
    // Camera and session callbacks

    method OnCameraOpened(delivered: CameraHandle, create: AccessOutcome)
      requires Valid() && state == Activating
      requires create.AccessFailure? ==> OwnerReachable(Snapshot())
      modifies this
      ensures Valid()
      ensures var r := TorchModel.OnCameraOpened(old(Snapshot()), delivered, create);
        Snapshot() == r.after && log == old(log) + r.effects
    {
      camera := Some(delivered);
      match create {
        case Accepted =>
          log := log + [CreateSession(delivered)];
        case AccessFailure(reason) =>
          OnError(FromException(reason));
      }
    }

    method OnCameraClosed()
      requires Valid() && CanClose(Snapshot())
      modifies this
      ensures Valid()
      ensures var r := TorchModel.OnCameraClosed(old(Snapshot()));
        Snapshot() == r.after && log == old(log) + r.effects
    {
      OnError(Disconnected);
    }

    method OnCameraError(code: int)
      requires Valid() && CanClose(Snapshot())
      modifies this
      ensures Valid()
      ensures var r := TorchModel.OnCameraError(old(Snapshot()), code);
        Snapshot() == r.after && log == old(log) + r.effects
    {
      var kind := FromDeviceError(code);
      OnError(kind);
    }

    method OnSessionConfigured(configured: SessionHandle, capture: AccessOutcome)
      requires Valid() && state != Off
      requires CanCapture(Snapshot().(session := Some(configured)), capture)
      modifies this
      ensures Valid()
      ensures var r := TorchModel.OnSessionConfigured(old(Snapshot()), configured, capture);
        Snapshot() == r.after && log == old(log) + r.effects
    {
      session := Some(configured);
      PerformCapture(capture);
    }

    method OnSessionConfigureFailed()
      requires Valid() && CanClose(Snapshot())
      modifies this
      ensures Valid()
      ensures var r := TorchModel.OnSessionConfigureFailed(old(Snapshot()));
        Snapshot() == r.after && log == old(log) + r.effects
    {
      OnError(SessionError);
    }

    method PerformCapture(capture: AccessOutcome)
      requires CanCapture(Snapshot(), capture)
      modifies this
      ensures var r := TorchModel.PerformCapture(old(Snapshot()), capture);
        Snapshot() == r.after && log == old(log) + r.effects
    {
      state := On;
      if curBrightness != desiredBrightness {
        curBrightness := desiredBrightness;
        match capture {
          case Accepted =>
            log := log + [Capture(curBrightness)];
            NotifyTorchState();
          case AccessFailure(reason) =>
            OnError(FromException(reason));
        }
      }
    }

    // -------------------------------------------------------------------------
    // Broadcasts

    method NotifyTorchState()
      modifies this`log
      ensures log == old(log) + TorchModel.NotifyTorchState(Snapshot())
    {
      if cameraId.Some? {
        log := log + [StateChanged(listeners, curBrightness, maxBrightness)];
      }
    }

    method NotifyTorchError(kind: TorchError)
      modifies this`log
      ensures log == old(log) + [Error(listeners, kind)]
    {
      log := log + [Error(listeners, kind)];
    }
  }

  /**
   * A client driving one session through discovery, an owner, a listener and
   * a full on/off cycle, using nothing but the session's contracts.
   */
  method OnOffClient(primary: Owner, watcher: Listener, delivered: CameraHandle, configured: SessionHandle)
  {
    var torch := new TorchSession();
    torch.RegisterServiceOwner(primary);
    torch.RegisterTorchListener(watcher, IdList([CameraEntry("cam0", NoLevel), CameraEntry("cam1", Level(5))]));
    assert torch.cameraId == Some("cam1") && torch.maxBrightness == 5;
    assert torch.log[|torch.log| - 1] == StateChanged({watcher}, 0, 5);

    torch.SetTorchBrightness(3, OpenAccepted, Accepted);
    assert torch.state == Activating;
    torch.OnCameraOpened(delivered, Accepted);
    torch.OnSessionConfigured(configured, Accepted);
    assert torch.state == On && torch.curBrightness == 3;
    assert torch.log[|torch.log| - 1] == StateChanged({watcher}, 3, 5);

    torch.SetTorchBrightness(0, OpenAccepted, Accepted);
    assert torch.state == Off && torch.curBrightness == 0 && torch.camera.None?;
    assert torch.log[|torch.log| - 1] == OwnerNeeded(primary, false, false);

    var refused := torch.UnregisterServiceOwner(primary);
    assert refused.None? && torch.primaryOwner.None?;
  }
}
