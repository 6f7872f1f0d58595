/**
 * The torch error kinds, how Camera2 failure codes map onto them, and the
 * message resource shown for each kind.
 */
module TorchErrors {
  import opened Wrappers

  /** The ten kinds of torch failure, in their declaration order. */
  datatype TorchError =
    | NoPermission
    | BlockedByPolicy
    | Disconnected
    | DeviceError
    | ServiceError
    | SessionError
    | InUse
    | MaximumInUse
    | NoValidCamera
    | Unknown

  /** Every kind, each exactly once. */
  const AllErrors: seq<TorchError> :=
    [NoPermission, BlockedByPolicy, Disconnected, DeviceError, ServiceError,
     SessionError, InUse, MaximumInUse, NoValidCamera, Unknown]

  lemma AllErrorsComplete(e: TorchError)
    ensures e in AllErrors
    ensures |AllErrors| == 10
    ensures forall i, j :: 0 <= i < j < |AllErrors| ==> AllErrors[i] != AllErrors[j]
  {
  }

  /** The string resources of the notification texts, one per kind. */
  datatype UiString =
    | NotificationErrorNoPermission
    | NotificationErrorBlockedByPolicy
    | NotificationErrorDisconnected
    | NotificationErrorDeviceError
    | NotificationErrorServiceError
    | NotificationErrorSessionError
    | NotificationErrorInUse
    | NotificationErrorMaximumInUse
    | NotificationErrorNoValidCamera
    | NotificationErrorUnknown

  /** The kind a message resource presents. */
  function UiStringKind(s: UiString): TorchError
  {
    match s
    case NotificationErrorNoPermission => NoPermission
    case NotificationErrorBlockedByPolicy => BlockedByPolicy
    case NotificationErrorDisconnected => Disconnected
    case NotificationErrorDeviceError => DeviceError
    case NotificationErrorServiceError => ServiceError
    case NotificationErrorSessionError => SessionError
    case NotificationErrorInUse => InUse
    case NotificationErrorMaximumInUse => MaximumInUse
    case NotificationErrorNoValidCamera => NoValidCamera
    case NotificationErrorUnknown => Unknown
  }

  /** The message resource used to present an error kind; the message tells the kind back. */
  function ToUiString(e: TorchError): (s: UiString)
    ensures UiStringKind(s) == e
  {
    match e
    case NoPermission => NotificationErrorNoPermission
    case BlockedByPolicy => NotificationErrorBlockedByPolicy
    case Disconnected => NotificationErrorDisconnected
    case DeviceError => NotificationErrorDeviceError
    case ServiceError => NotificationErrorServiceError
    case SessionError => NotificationErrorSessionError
    case InUse => NotificationErrorInUse
    case MaximumInUse => NotificationErrorMaximumInUse
    case NoValidCamera => NotificationErrorNoValidCamera
    case Unknown => NotificationErrorUnknown
  }

  /** Distinct kinds are presented with distinct messages. */
  lemma ToUiStringInjective(a: TorchError, b: TorchError)
    ensures ToUiString(a) == ToUiString(b) ==> a == b
  {
  }

  /** The ten kinds use ten different messages between them. */
  lemma {:induction false} ToUiStringDistinctOverAll()
    ensures forall i, j :: 0 <= i < j < |AllErrors| ==> ToUiString(AllErrors[i]) != ToUiString(AllErrors[j])
  {
    forall i, j | 0 <= i < j < |AllErrors|
      ensures ToUiString(AllErrors[i]) != ToUiString(AllErrors[j])
    {
      AllErrorsComplete(AllErrors[i]);
      ToUiStringInjective(AllErrors[i], AllErrors[j]);
    }
  }

  // Reasons carried by a CameraAccessException (values of the Android SDK constants).
  const CameraDisabled: int := 1
  const CameraDisconnected: int := 2
  const CameraErrorReason: int := 3
  const CameraInUse: int := 4
  const MaxCamerasInUse: int := 5

  /** The reasons that have a kind of their own. */
  const AccessReasons: set<int> :=
    {CameraDisabled, CameraDisconnected, CameraErrorReason, CameraInUse, MaxCamerasInUse}

  /** The kind reported for a failed camera access with the given reason. */
  function FromException(reason: int): (e: TorchError)
    ensures e != NoPermission && e != ServiceError && e != SessionError && e != NoValidCamera
    ensures e == Unknown <==> reason !in AccessReasons
  {
    if reason == CameraDisabled then BlockedByPolicy
    else if reason == CameraDisconnected then Disconnected
    else if reason == CameraErrorReason then DeviceError
    else if reason == CameraInUse then InUse
    else if reason == MaxCamerasInUse then MaximumInUse
    else Unknown
  }

  /** The access-failure table read backwards: the one reason that yields a kind, if any. */
  function AccessReasonOf(e: TorchError): (r: Option<int>)
    ensures r.Some? ==> r.value in AccessReasons
  {
    match e
    case BlockedByPolicy => Some(CameraDisabled)
    case Disconnected => Some(CameraDisconnected)
    case DeviceError => Some(CameraErrorReason)
    case InUse => Some(CameraInUse)
    case MaximumInUse => Some(MaxCamerasInUse)
    case _ => None
  }

  /** FromException and the reverse table agree on every reason and every kind. */
  lemma FromExceptionInverse(reason: int, e: TorchError)
    ensures (FromException(reason) == e && e != Unknown) <==> AccessReasonOf(e) == Some(reason)
  {
  }

  // Error codes passed to CameraDevice.StateCallback.onError (values of the Android SDK constants).
  const ErrorCameraInUse: int := 1
  const ErrorMaxCamerasInUse: int := 2
  const ErrorCameraDisabled: int := 3
  const ErrorCameraDevice: int := 4
  const ErrorCameraService: int := 5

  /** The device error codes that have a kind of their own. */
  const DeviceErrorCodes: set<int> :=
    {ErrorCameraInUse, ErrorMaxCamerasInUse, ErrorCameraDisabled, ErrorCameraDevice, ErrorCameraService}

  /** The kind reported when an open camera device fails with the given code. */
  function FromDeviceError(code: int): (e: TorchError)
    ensures e != NoPermission && e != Disconnected && e != SessionError && e != NoValidCamera
    ensures e == Unknown <==> code !in DeviceErrorCodes
  {
    if code == ErrorCameraInUse then InUse
    else if code == ErrorMaxCamerasInUse then MaximumInUse
    else if code == ErrorCameraDisabled then BlockedByPolicy
    else if code == ErrorCameraDevice then DeviceError
    else if code == ErrorCameraService then ServiceError
    else Unknown
  }

  /** The device-error table read backwards. */
  function DeviceErrorCodeOf(e: TorchError): (r: Option<int>)
    ensures r.Some? ==> r.value in DeviceErrorCodes
  {
    match e
    case InUse => Some(ErrorCameraInUse)
    case MaximumInUse => Some(ErrorMaxCamerasInUse)
    case BlockedByPolicy => Some(ErrorCameraDisabled)
    case DeviceError => Some(ErrorCameraDevice)
    case ServiceError => Some(ErrorCameraService)
    case _ => None
  }

  /** FromDeviceError and the reverse table agree on every code and every kind. */
  lemma FromDeviceErrorInverse(code: int, e: TorchError)
    ensures (FromDeviceError(code) == e && e != Unknown) <==> DeviceErrorCodeOf(e) == Some(code)
  {
  }

  /**
   * Which kinds come from where: NoPermission, SessionError and NoValidCamera
   * come from neither table, Disconnected only from a failed access and
   * ServiceError only from a device error.
   */
  lemma ErrorKindSources(e: TorchError)
    ensures e in {NoPermission, SessionError, NoValidCamera} ==>
      (forall r :: FromException(r) != e) && (forall c :: FromDeviceError(c) != e)
    ensures (exists r :: FromException(r) == e) && (exists c :: FromDeviceError(c) == e) <==>
      e in {BlockedByPolicy, DeviceError, InUse, MaximumInUse, Unknown}
  {
    if e in {BlockedByPolicy, DeviceError, InUse, MaximumInUse} {
      FromExceptionInverse(AccessReasonOf(e).value, e);
      FromDeviceErrorInverse(DeviceErrorCodeOf(e).value, e);
    } else if e == Unknown {
      assert FromException(0) == e && FromDeviceError(0) == e;
    }
  }
}
