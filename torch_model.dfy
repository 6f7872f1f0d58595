/**
 * The torch session as values: a snapshot of every field the session keeps,
 * the effects it has on the world (calls into owners, listeners and the
 * camera driver), and one transition function per operation and camera
 * callback. Each function returns the new snapshot together with the effects
 * it emitted, in order. The driver's answers (the camera list, whether an open,
 * a session creation or a capture request was accepted) are parameters.
 */
module TorchModel {
  import opened Wrappers
  import opened TorchErrors

  /** The torch lifecycle: off, opening the camera and its session, or lit. */
  datatype State = Off | Activating | On

  type CameraId = string

  /** Opaque handles handed out by the camera driver. */
  datatype CameraHandle = CameraHandle(id: nat)
  datatype SessionHandle = SessionHandle(id: nat)

  /** Identities of the services that own the session and of the state listeners. */
  datatype Owner = Owner(id: nat)
  datatype Listener = Listener(id: nat)

  /** An externally visible effect. Broadcasts name the listener set they reach. */
  datatype Effect =
    | OwnerNeeded(owner: Owner, needService: bool, needForeground: bool)
    | StateChanged(to: set<Listener>, cur: int, max: int)
    | Error(to: set<Listener>, kind: TorchError)
    | Open(cameraId: CameraId)
    | CreateSession(camera: CameraHandle)
    | Capture(brightness: int)
    | Close(camera: CameraHandle)

  /** What a driver request that may throw CameraAccessException did. */
  datatype AccessOutcome = Accepted | AccessFailure(reason: int)

  /** What a request to open the camera did: it may also be refused for lack of permission. */
  datatype OpenOutcome = OpenAccepted | OpenAccessFailure(reason: int) | OpenSecurityDenial

  /** The flashlight maximum-brightness characteristic of one camera, or the failure to read it. */
  datatype MaxLevel = Level(max: int) | NoLevel | LevelQueryFailure(reason: int)
  datatype CameraEntry = CameraEntry(id: CameraId, level: MaxLevel)

  /** The driver's camera list, or the reason it could not be listed. */
  datatype CameraQuery = IdListFailure(reason: int) | IdList(entries: seq<CameraEntry>)

  /** Every field of the session that its operations read or write. */
  datatype Torch = Torch(
    state: State,
    cameraId: Option<CameraId>,
    maxBrightness: int,
    curBrightness: int,
    desiredBrightness: int,
    camera: Option<CameraHandle>,
    session: Option<SessionHandle>,
    primaryOwner: Option<Owner>,
    additionalOwners: set<Owner>,
    listeners: set<Listener>)

  /** The session as it is constructed. */
  const Initial: Torch := Torch(Off, None, -1, 0, 0, None, None, None, {}, {})

  /** The snapshot after an operation and the effects it emitted, in order. */
  datatype Step = Step(after: Torch, effects: seq<Effect>)

  /** What camera discovery reports, with the step it took. */
  datatype Discovery = Discovery(found: bool, step: Step)

  /** Why unregistering the primary owner is refused. */
  datatype IllegalState = TorchStillOn | AdditionalOwnersRemain

  /**
   * The session invariant: the brightness is zero unless the torch is lit and
   * then it is the desired one; handles are held only while the torch is not
   * off; a camera is known before the torch leaves OFF; additional owners
   * exist only beside a primary owner.
   */
  ghost predicate Inv(t: Torch)
    ensures Inv(t) && t.curBrightness != 0 ==> t.state == On && t.session.Some?
    ensures Inv(t) && t.cameraId.None? ==> t.camera.None? && t.session.None?
  {
    && (t.cameraId.None? ==> t.state == Off && t.maxBrightness == -1)
    && (t.state != On ==> t.curBrightness == 0)
    && (t.state == On ==> t.curBrightness == t.desiredBrightness && t.session.Some?)
    && (t.state != Off ==> t.desiredBrightness != 0)
    && (t.state == Off ==> t.camera.None? && t.session.None?)
    && (t.state == Activating ==> t.session.None?)
    && (t.additionalOwners != {} ==> t.primaryOwner.Some?)
  }

  lemma InitialInv()
    ensures Inv(Initial)
  {
  }

  /** The fields that only discovery, brightness requests and registration change. */
  predicate KeepsSetup(t: Torch, u: Torch)
  {
    && u.cameraId == t.cameraId
    && u.maxBrightness == t.maxBrightness
    && u.desiredBrightness == t.desiredBrightness
    && u.primaryOwner == t.primaryOwner
    && u.additionalOwners == t.additionalOwners
    && u.listeners == t.listeners
  }

  /** Java's Math.min on two ints. */
  function Min(a: int, b: int): (m: int)
    ensures m <= a && m <= b && (m == a || m == b)
  {
    if a <= b then a else b
  }

  // ---------------------------------------------------------------------------
  // Ownership queries and notifications

  /** The primary owner must stay alive while the torch is not off or others depend on it. */
  predicate IsOwnerNeeded(t: Torch)
    ensures Inv(t) && !IsOwnerNeeded(t) ==> t.curBrightness == 0 && t.camera.None? && t.session.None?
  {
    t.state != Off || t.additionalOwners != {}
  }

  predicate IsServiceOwner(t: Torch, o: Owner)
  {
    t.primaryOwner == Some(o)
  }

  /** Someone can be told that the owner is no longer needed: a primary owner exists, or additional ones do. */
  predicate OwnerReachable(t: Torch)
  {
    t.additionalOwners != {} || t.primaryOwner.Some?
  }

  /** Closing dereferences the primary owner when it leaves a state other than OFF with no additional owners. */
  predicate CanClose(t: Torch)
  {
    t.state == Off || OwnerReachable(t)
  }

  /** The primary owner is told the service is needed, and the foreground exactly while the torch is not off. */
  function NotifyOwnerNeeded(t: Torch): (r: seq<Effect>)
    requires t.primaryOwner.Some?
    ensures |r| == 1 && r[0].OwnerNeeded? && r[0].owner == t.primaryOwner.value
    ensures r[0].needService && (r[0].needForeground <==> t.state != Off)
  {
    [OwnerNeeded(t.primaryOwner.value, true, t.state != Off)]
  }

  /** The primary owner hears (false, false) once, and only when it is no longer needed. */
  function TryNotifyOwnerNotNeeded(t: Torch): (r: seq<Effect>)
    requires IsOwnerNeeded(t) || t.primaryOwner.Some?
    ensures |r| <= 1 && (r != [] <==> !IsOwnerNeeded(t))
    ensures r != [] ==> r[0] == OwnerNeeded(t.primaryOwner.value, false, false)
  {
    if IsOwnerNeeded(t) then [] else [OwnerNeeded(t.primaryOwner.value, false, false)]
  }

  /** The state broadcast, sent only once a camera is known. */
  function NotifyTorchState(t: Torch): (r: seq<Effect>)
    ensures r == [] || r == [StateChanged(t.listeners, t.curBrightness, t.maxBrightness)]
    ensures r != [] <==> t.cameraId.Some?
  {
    if t.cameraId.Some? then [StateChanged(t.listeners, t.curBrightness, t.maxBrightness)] else []
  }

  // ---------------------------------------------------------------------------
  // Closing and errors

  /** Releases the camera (its session goes with it) and turns the torch off. */
  function CloseCamera(t: Torch): (r: Step)
    requires CanClose(t)
    ensures r.after == t.(state := Off, curBrightness := 0, camera := None, session := None)
    ensures Inv(t) ==> Inv(r.after)
  {
    var off := t.(state := Off, curBrightness := 0, camera := None, session := None);
    var released := if t.camera.Some? then [Close(t.camera.value)] else [];
    var owner := if t.state != Off then TryNotifyOwnerNotNeeded(off) else [];
    Step(off, released + NotifyTorchState(off) + owner)
  }

  /** Reports an error to every listener, then closes unless the torch is already off. */
  function OnError(t: Torch, kind: TorchError): (r: Step)
    requires CanClose(t)
    ensures KeepsSetup(t, r.after)
    ensures r.after.state == Off && r.after.camera.None? == (t.state != Off || t.camera.None?)
    ensures |r.effects| >= 1 && r.effects[0] == Error(t.listeners, kind)
    ensures t.state == Off ==> r == Step(t, [Error(t.listeners, kind)])
    ensures t.state != Off ==> r.after == CloseCamera(t).after
    ensures Inv(t) ==> Inv(r.after)
  {
    var reported := [Error(t.listeners, kind)];
    if t.state != Off then
      var closed := CloseCamera(t);
      Step(closed.after, reported + closed.effects)
    else
      Step(t, reported)
  }

  // ---------------------------------------------------------------------------
  // Capturing, opening and brightness requests

  /** The capture step may run: the torch is not off, a session exists, and a failed capture can close. */
  predicate CanCapture(t: Torch, capture: AccessOutcome)
  {
    && t.state != Off
    && t.session.Some?
    && (t.curBrightness != t.desiredBrightness && capture.AccessFailure? ==> OwnerReachable(t))
  }

  /** Lights the torch at the desired brightness, issuing a capture only when that changes it. */
  function PerformCapture(t: Torch, capture: AccessOutcome): (r: Step)
    requires CanCapture(t, capture)
    ensures KeepsSetup(t, r.after)
    ensures r.after.state != Activating
    ensures r.after.state == Off <==> t.curBrightness != t.desiredBrightness && capture.AccessFailure?
    ensures r.after.state == On ==>
      r.after == t.(state := On, curBrightness := t.desiredBrightness)
    ensures r.after.state == Off ==> r.after.curBrightness == 0 && r.after.camera.None? && r.after.session.None?
  {
    var on := t.(state := On);
    if t.curBrightness == t.desiredBrightness then
      Step(on, [])
    else
      var lit := on.(curBrightness := t.desiredBrightness);
      match capture
      case Accepted => Step(lit, [Capture(lit.curBrightness)] + NotifyTorchState(lit))
      case AccessFailure(reason) => OnError(lit, FromException(reason))
  }

  /** Opening needs a known camera and a primary owner to tell that it is needed. */
  predicate CanOpen(t: Torch)
  {
    t.state == Off && t.cameraId.Some? && t.primaryOwner.Some?
  }

  /** Moves to ACTIVATING, tells the primary owner it is needed in the foreground, and opens the camera. */
  function OpenCamera(t: Torch, open: OpenOutcome): (r: Step)
    requires CanOpen(t)
    ensures KeepsSetup(t, r.after)
    ensures |r.effects| >= 1 && r.effects[0] == OwnerNeeded(t.primaryOwner.value, true, true)
    ensures open.OpenAccepted? ==>
      r == Step(t.(state := Activating), [OwnerNeeded(t.primaryOwner.value, true, true), Open(t.cameraId.value)])
    ensures !open.OpenAccepted? ==> r.after == t.(curBrightness := 0, camera := None, session := None)
  {
    var activating := t.(state := Activating);
    var needed := NotifyOwnerNeeded(activating);
    match open
    case OpenAccepted =>
      Step(activating, needed + [Open(t.cameraId.value)])
    case OpenAccessFailure(reason) =>
      var failed := OnError(activating, FromException(reason));
      Step(failed.after, needed + failed.effects)
    case OpenSecurityDenial =>
      var failed := OnError(activating, NoPermission);
      Step(failed.after, needed + failed.effects)
  }

  /** What a brightness request demands of the session, depending on where it leads. */
  predicate CanSet(t: Torch, brightness: int, capture: AccessOutcome)
  {
    var desired := t.(desiredBrightness := Min(brightness, t.maxBrightness));
    if desired.desiredBrightness == 0 then CanClose(desired)
    else match t.state
      case Off => CanOpen(desired)
      case Activating => true
      case On => CanCapture(desired, capture)
  }

  /** Stores the requested brightness, capped at the maximum, and acts on it. */
  function SetTorchBrightness(t: Torch, brightness: int, open: OpenOutcome, capture: AccessOutcome): (r: Step)
    requires CanSet(t, brightness, capture)
    ensures r.after.desiredBrightness == Min(brightness, t.maxBrightness)
    ensures r.after.desiredBrightness <= t.maxBrightness
    ensures r.after.desiredBrightness == 0 ==>
      r.after.state == Off && r.after.curBrightness == 0 && r.after.camera.None? && r.after.session.None?
    ensures Inv(t) ==> Inv(r.after)
  {
    var desired := t.(desiredBrightness := Min(brightness, t.maxBrightness));
    if desired.desiredBrightness == 0 then
      CloseCamera(desired)
    else
      match t.state
      case Off => OpenCamera(desired, open)
      case Activating => Step(desired, [])
      case On => PerformCapture(desired, capture)
  }

  // ---------------------------------------------------------------------------
  // Camera and session callbacks

  /** The opened camera is kept and a capture session is requested on it. */
  function OnCameraOpened(t: Torch, camera: CameraHandle, create: AccessOutcome): (r: Step)
    requires t.state == Activating
    requires create.AccessFailure? ==> OwnerReachable(t)
    ensures KeepsSetup(t, r.after)
    ensures create.Accepted? ==> r == Step(t.(camera := Some(camera)), [CreateSession(camera)])
    ensures create.AccessFailure? ==> r.after.state == Off && Close(camera) in r.effects
    ensures Inv(t) ==> Inv(r.after)
  {
    var kept := t.(camera := Some(camera));
    match create
    case Accepted => Step(kept, [CreateSession(camera)])
    case AccessFailure(reason) => OnError(kept, FromException(reason))
  }

  /** The camera was disconnected. */
  function OnCameraClosed(t: Torch): (r: Step)
    requires CanClose(t)
    ensures KeepsSetup(t, r.after) && r.after.state == Off
    ensures |r.effects| >= 1 && r.effects[0] == Error(t.listeners, Disconnected)
    ensures Inv(t) ==> Inv(r.after)
  {
    OnError(t, Disconnected)
  }

  /** The camera device failed with an error code. */
  function OnCameraError(t: Torch, code: int): (r: Step)
    requires CanClose(t)
    ensures KeepsSetup(t, r.after) && r.after.state == Off
    ensures |r.effects| >= 1 && r.effects[0] == Error(t.listeners, FromDeviceError(code))
    ensures Inv(t) ==> Inv(r.after)
  {
    OnError(t, FromDeviceError(code))
  }

  /** The capture session is ready: keep it and light the torch. */
  function OnSessionConfigured(t: Torch, session: SessionHandle, capture: AccessOutcome): (r: Step)
    requires t.state != Off
    requires CanCapture(t.(session := Some(session)), capture)
    ensures KeepsSetup(t, r.after)
    ensures r.after.state == On ==>
      r.after.curBrightness == t.desiredBrightness && r.after.session == Some(session)
    ensures Inv(t) ==> Inv(r.after)
  {
    PerformCapture(t.(session := Some(session)), capture)
  }

  /** The capture session could not be configured. */
  function OnSessionConfigureFailed(t: Torch): (r: Step)
    requires CanClose(t)
    ensures KeepsSetup(t, r.after) && r.after.state == Off
    ensures |r.effects| >= 1 && r.effects[0] == Error(t.listeners, SessionError)
    ensures Inv(t) ==> Inv(r.after)
  {
    OnError(t, SessionError)
  }

  // ---------------------------------------------------------------------------
  // Camera discovery and listeners

  /** The index of the first camera whose maximum-brightness query did not come back empty. */
  function FirstCandidate(entries: seq<CameraEntry>): (k: nat)
    ensures k <= |entries|
    ensures forall j :: 0 <= j < k ==> entries[j].level.NoLevel?
    ensures k < |entries| ==> !entries[k].level.NoLevel?
  {
    if entries == [] then 0
    else if entries[0].level.NoLevel? then
      var k := 1 + FirstCandidate(entries[1..]);
      assert forall j :: 1 <= j < k ==> entries[j] == entries[1..][j - 1];
      k
    else 0
  }

  /**
   * Finds the torch camera once: picks the first camera with a maximum
   * brightness, caching its id and maximum; reports NO_VALID_CAMERA when there
   * is none, and the access failure when the driver cannot be queried.
   */
  function UpdateCameraDetails(t: Torch, query: CameraQuery): (r: Discovery)
    requires t.cameraId.Some? || CanClose(t)
    ensures t.cameraId.Some? ==> r == Discovery(true, Step(t, []))
    ensures r.found <==> r.step.after.cameraId.Some?
    ensures !r.found ==> r.step.after.state == Off && KeepsSetup(t, r.step.after)
    ensures r.step.after.listeners == t.listeners
    ensures r.step.after.primaryOwner == t.primaryOwner && r.step.after.additionalOwners == t.additionalOwners
    ensures Inv(t) ==> Inv(r.step.after)
  {
    if t.cameraId.Some? then
      Discovery(true, Step(t, []))
    else
      match query
      case IdListFailure(reason) =>
        Discovery(false, OnError(t, FromException(reason)))
      case IdList(entries) =>
        var k := FirstCandidate(entries);
        if k == |entries| then
          Discovery(false, OnError(t, NoValidCamera))
        else
          match entries[k].level
          case Level(max) =>
            Discovery(true, Step(t.(cameraId := Some(entries[k].id), maxBrightness := max, curBrightness := 0), []))
          case LevelQueryFailure(reason) =>
            Discovery(false, OnError(t, FromException(reason)))
  }

  /** Adds a listener; once a camera is known it receives the current state on its own. */
  function RegisterTorchListener(t: Torch, listener: Listener, query: CameraQuery): (r: Step)
    requires t.cameraId.Some? || CanClose(t)
    ensures r.after.listeners == t.listeners + {listener}
    ensures r.after.primaryOwner == t.primaryOwner && r.after.additionalOwners == t.additionalOwners
    ensures Inv(t) ==> Inv(r.after)
  {
    var added := t.(listeners := t.listeners + {listener});
    var d := UpdateCameraDetails(added, query);
    if d.found then
      Step(d.step.after, d.step.effects + [StateChanged({listener}, d.step.after.curBrightness, d.step.after.maxBrightness)])
    else
      d.step
  }

  function UnregisterTorchListener(t: Torch, listener: Listener): (r: Step)
    ensures r.after == t.(listeners := t.listeners - {listener}) && r.effects == []
    ensures listener !in r.after.listeners
  {
    Step(t.(listeners := t.listeners - {listener}), [])
  }

  /** Runs discovery again if needed and, once a camera is known, broadcasts the state. */
  function RefreshCameras(t: Torch, query: CameraQuery): (r: Step)
    requires t.cameraId.Some? || CanClose(t)
    ensures r.after.listeners == t.listeners
    ensures Inv(t) ==> Inv(r.after)
  {
    var d := UpdateCameraDetails(t, query);
    if d.found then
      var u := d.step.after;
      Step(u, d.step.effects + [StateChanged(u.listeners, u.curBrightness, u.maxBrightness)])
    else
      d.step
  }

  // ---------------------------------------------------------------------------
  // Owners

  /** The first owner becomes primary; later ones depend on it and keep it alive. */
  function RegisterServiceOwner(t: Torch, owner: Owner): (r: Step)
    ensures t.primaryOwner.None? ==> r == Step(t.(primaryOwner := Some(owner)), [])
    ensures t.primaryOwner.Some? ==> r.after.primaryOwner == t.primaryOwner
    ensures r.after.additionalOwners == if t.primaryOwner.None? then t.additionalOwners else t.additionalOwners + {owner}
    ensures r.after.(primaryOwner := t.primaryOwner, additionalOwners := t.additionalOwners) == t
    ensures Inv(t) ==> Inv(r.after)
  {
    if t.primaryOwner.None? then
      Step(t.(primaryOwner := Some(owner)), [])
    else
      var joined := t.(additionalOwners := t.additionalOwners + {owner});
      Step(joined, NotifyOwnerNeeded(joined))
  }

  /** Unregistering a non-primary owner may tell a missing primary owner it is not needed. */
  predicate CanUnregister(t: Torch, owner: Owner)
  {
    t.primaryOwner.Some? || IsOwnerNeeded(t.(additionalOwners := t.additionalOwners - {owner}))
  }

  /**
   * Removes an owner. The primary owner may leave only while the brightness is
   * zero and no additional owner remains; otherwise the request fails and
   * nothing changes.
   */
  function UnregisterServiceOwner(t: Torch, owner: Owner): (r: Result<Step, IllegalState>)
    requires CanUnregister(t, owner)
    ensures r.Failure? <==>
      t.primaryOwner == Some(owner) && (t.curBrightness != 0 || t.additionalOwners != {})
    ensures r.Failure? ==> r.error == if t.curBrightness != 0 then TorchStillOn else AdditionalOwnersRemain
    ensures r.Success? && t.primaryOwner == Some(owner) ==> r.value == Step(t.(primaryOwner := None), [])
    ensures r.Success? && t.primaryOwner != Some(owner) ==>
      r.value.after == t.(additionalOwners := t.additionalOwners - {owner})
    ensures Inv(t) && r.Success? ==> Inv(r.value.after)
  {
    if t.primaryOwner == Some(owner) then
      if t.curBrightness != 0 then Failure(TorchStillOn)
      else if t.additionalOwners != {} then Failure(AdditionalOwnersRemain)
      else Success(Step(t.(primaryOwner := None), []))
    else
      var left := t.(additionalOwners := t.additionalOwners - {owner});
      Success(Step(left, TryNotifyOwnerNotNeeded(left)))
  }
}
