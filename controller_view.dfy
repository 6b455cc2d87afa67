/**
 * The controller snapshot the UI widgets read (`ScannerController` without
 * its operations) and the controller calls a widget can make.
 */
module ControllerView {
  import opened Wrappers
  import opened Events
  import opened Media

  /** The fields of the controller the widgets read. */
  datatype View = View(
    devices: Option<seq<Device>>,
    state: Option<ScannerState>,
    capabilities: Option<Capabilities>,
    constraints: Option<Constraints>,
    settings: Option<Settings>)

  /** A request a widget makes of the controller; `NoCall` when it makes none. */
  datatype Call = NoCall | CallPlay(constraints: Option<Constraints>) | CallPause | CallSetTorch(on: bool) | CallSetZoom(level: real)

  /** `{facingMode: 'environment'}`, the constraints used when no device id is known. */
  const DefaultConstraints: Constraints := FacingConstraints("environment")

  /**
   * The play/pause toggle shared by PlayButton and the Scanner component:
   * PLAYING pauses, PAUSED resumes in place (no constraints), and any other
   * state acquires a stream for the known device, else for the default
   * facing mode.
   */
  function TogglePlayCall(state: Option<ScannerState>, deviceId: Option<string>): (c: Call)
    ensures c == CallPause <==> state == Some(PLAYING)
    ensures c == CallPlay(None) <==> state == Some(PAUSED)
    ensures state != Some(PLAYING) && state != Some(PAUSED) ==>
      c.CallPlay? && c.constraints.Some?
      && (Truthy(deviceId) ==> c.constraints.value == DeviceConstraints(deviceId.value))
      && (!Truthy(deviceId) ==> c.constraints.value == DefaultConstraints)
  {
    match state
    case Some(PLAYING) => CallPause
    case Some(PAUSED) => CallPlay(None)
    case _ => CallPlay(Some(if Truthy(deviceId) then DeviceConstraints(deviceId.value) else DefaultConstraints))
  }
}
