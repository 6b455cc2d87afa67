/** src/components/Button/PlayButton.tsx */
module PlayButton {
  import opened Wrappers
  import opened Events
  import opened Media
  import opened ControllerView

  /** `disabled`: the state is absent or not one of STOPPED, PLAYING, PAUSED. */
  function Disabled(controller: Option<View>): (d: bool)
    ensures d <==> controller.None? || controller.value.state.None? || controller.value.state == Some(LOADING)
  {
    var state := if controller.Some? then controller.value.state else None;
    !(state.Some? && (state.value == STOPPED || state.value == PLAYING || state.value == PAUSED))
  }

  /** The pause icon is shown instead of the play icon. */
  function ShowsPause(controller: Option<View>): (p: bool)
    ensures p <==> controller.Some? && controller.value.state == Some(PLAYING)
    ensures p ==> !Disabled(controller)
  {
    controller.Some? && controller.value.state == Some(PLAYING)
  }

  /** `controller?.constraints?.deviceId` */
  function DeviceId(controller: Option<View>): (id: Option<string>)
    ensures id.Some? ==> controller.Some? && controller.value.constraints.Some? && id == controller.value.constraints.value.deviceId
    ensures controller.Some? && controller.value.constraints.Some? ==> id == controller.value.constraints.value.deviceId
  {
    if controller.Some? && controller.value.constraints.Some? then controller.value.constraints.value.deviceId else None
  }

  /** `togglePlay`: no call without a controller, otherwise the shared toggle rule on the state and the constrained device id. */
  function TogglePlay(controller: Option<View>): (c: Call)
    ensures controller.None? ==> c == NoCall
    ensures controller.Some? ==> c == TogglePlayCall(controller.value.state, DeviceId(controller))
  {
    if controller.None? then NoCall else TogglePlayCall(controller.value.state, DeviceId(controller))
  }

  /** The icon tells what a click does: the pause icon exactly when the click pauses. */
  lemma IconMatchesClick(controller: Option<View>)
    ensures ShowsPause(controller) <==> TogglePlay(controller) == CallPause
  {
  }

  /** An enabled button always makes a call; from STOPPED it acquires a stream with constraints. */
  lemma EnabledClickCalls(controller: Option<View>)
    requires !Disabled(controller)
    ensures TogglePlay(controller) != NoCall
    ensures controller.value.state == Some(STOPPED) ==>
      TogglePlay(controller).CallPlay? && TogglePlay(controller).constraints.Some?
  {
  }
}

/** src/components/Button/RotateButton.tsx: the current device id is read from the track's constraints. */
module RotateButton {
  import opened Wrappers
  import opened Media
  import opened ControllerView
  import Rotation

  /** `controller?.devices?.length || 0` */
  function DevicesLength(controller: Option<View>): (n: nat)
    ensures controller.Some? && controller.value.devices.Some? ==> n == |controller.value.devices.value|
    ensures controller.None? || controller.value.devices.None? ==> n == 0
  {
    if controller.Some? && controller.value.devices.Some? then |controller.value.devices.value| else 0
  }

  /** `controller?.constraints?.deviceId` */
  function DeviceId(controller: Option<View>): (id: Option<string>)
    ensures id.Some? ==> controller.Some? && controller.value.constraints.Some? && id == controller.value.constraints.value.deviceId
    ensures controller.Some? && controller.value.constraints.Some? ==> id == controller.value.constraints.value.deviceId
  {
    if controller.Some? && controller.value.constraints.Some? then controller.value.constraints.value.deviceId else None
  }

  /** `disabled={devicesLength < 2}`: disabled unless at least two devices are listed. */
  function Disabled(controller: Option<View>): (d: bool)
    ensures d <==> controller.None? || controller.value.devices.None? || |controller.value.devices.value| < 2
  {
    DevicesLength(controller) < 2
  }

  /**
   * `rotateDevice`: nothing without a controller, a truthy device id or a
   * device; otherwise play the next device of the list.
   */
  function RotateDevice(controller: Option<View>): (c: Call)
    ensures c == NoCall <==> DevicesLength(controller) < 1 || !Truthy(DeviceId(controller))
    ensures c != NoCall ==>
      var devices := controller.value.devices.value;
      c == CallPlay(Some(DeviceConstraints(Rotation.NextDeviceId(devices, DeviceId(controller).value))))
  {
    if controller.None? then NoCall
    else if !Truthy(DeviceId(controller)) then NoCall
    else if controller.value.devices.None? || DevicesLength(controller) < 1 then NoCall
    else
      var devices := controller.value.devices.value;
      CallPlay(Some(DeviceConstraints(Rotation.NextDeviceId(devices, DeviceId(controller).value))))
  }

  /** A rotation always names a device of the list. */
  lemma RotatePlaysListedDevice(controller: Option<View>)
    requires RotateDevice(controller) != NoCall
    ensures exists k :: (0 <= k < |controller.value.devices.value|
      && RotateDevice(controller) == CallPlay(Some(DeviceConstraints(controller.value.devices.value[k].deviceId))))
  {
    var devices := controller.value.devices.value;
    var id := Rotation.NextDeviceId(devices, DeviceId(controller).value);
    var k :| 0 <= k < |devices| && devices[k].deviceId == id;
    assert RotateDevice(controller) == CallPlay(Some(DeviceConstraints(devices[k].deviceId)));
  }
}

/** src/components/assemble/RotateButton.tsx: the current device id is read from the track's capabilities. */
module AssembleRotateButton {
  import opened Wrappers
  import opened Media
  import opened ControllerView
  import Rotation
  import RotateButton

  /** `controller?.capabilities?.deviceId` */
  function DeviceId(controller: Option<View>): (id: Option<string>)
    ensures id.Some? ==> controller.Some? && controller.value.capabilities.Some? && id == controller.value.capabilities.value.deviceId
    ensures controller.Some? && controller.value.capabilities.Some? ==> id == controller.value.capabilities.value.deviceId
  {
    if controller.Some? && controller.value.capabilities.Some? then controller.value.capabilities.value.deviceId else None
  }

  /** `disabled={devicesLength < 2}`: disabled unless at least two devices are listed. */
  function Disabled(controller: Option<View>): (d: bool)
    ensures d <==> controller.None? || controller.value.devices.None? || |controller.value.devices.value| < 2
  {
    RotateButton.DevicesLength(controller) < 2
  }

  /** `rotateDevice`, keyed by the capabilities' device id. */
  function RotateDevice(controller: Option<View>): (c: Call)
    ensures c == NoCall <==> RotateButton.DevicesLength(controller) < 1 || !Truthy(DeviceId(controller))
    ensures c != NoCall ==>
      var devices := controller.value.devices.value;
      c == CallPlay(Some(DeviceConstraints(Rotation.NextDeviceId(devices, DeviceId(controller).value))))
  {
    if controller.None? then NoCall
    else if !Truthy(DeviceId(controller)) then NoCall
    else if controller.value.devices.None? || RotateButton.DevicesLength(controller) < 1 then NoCall
    else
      var devices := controller.value.devices.value;
      CallPlay(Some(DeviceConstraints(Rotation.NextDeviceId(devices, DeviceId(controller).value))))
  }

  /** The two revisions agree whenever the constraints and the capabilities report the same device id. */
  lemma AgreesWithButtonRevision(controller: Option<View>)
    requires DeviceId(controller) == RotateButton.DeviceId(controller)
    ensures RotateDevice(controller) == RotateButton.RotateDevice(controller)
  {
  }
}

/** src/components/Button/TorchButton.tsx */
module TorchButton {
  import opened Wrappers
  import opened ControllerView

  /** `isTorchCan`: the torch capability is present at all (`torch: false` counts). */
  function IsTorchCan(controller: Option<View>): (can: bool)
    ensures can <==> controller.Some? && controller.value.capabilities.Some? && controller.value.capabilities.value.torch.Some?
    ensures controller.Some? && controller.value.capabilities.Some? && controller.value.capabilities.value.torch == Some(false) ==> can
  {
    controller.Some? && controller.value.capabilities.Some? && controller.value.capabilities.value.torch.Some?
  }

  /** `isTorchOn`: a missing setting counts as off. */
  function IsTorchOn(controller: Option<View>): (on: bool)
    ensures on <==> controller.Some? && controller.value.settings.Some? && controller.value.settings.value.torch == Some(true)
  {
    if controller.Some? && controller.value.settings.Some? && controller.value.settings.value.torch.Some?
    then controller.value.settings.value.torch.value
    else false
  }

  /** `disabled={!isTorchCan}`: disabled exactly when the torch capability is undefined. */
  function Disabled(controller: Option<View>): (d: bool)
    ensures d <==> controller.None? || controller.value.capabilities.None? || controller.value.capabilities.value.torch.None?
  {
    !IsTorchCan(controller)
  }

  /** `toggleTorch`: nothing when the torch is unavailable, otherwise request the opposite of the current setting. */
  function ToggleTorch(controller: Option<View>): (c: Call)
    ensures c == NoCall <==> !IsTorchCan(controller)
    ensures c != NoCall ==> c == CallSetTorch(!IsTorchOn(controller))
  {
    if !IsTorchCan(controller) then NoCall
    else if controller.None? then NoCall
    else CallSetTorch(!IsTorchOn(controller))
  }

  /** A click on an enabled button asks for the state the icon does not show: off when on, on when off or unknown. */
  lemma ClickRequestsOpposite(controller: Option<View>)
    requires !Disabled(controller)
    ensures ToggleTorch(controller) == CallSetTorch(true) <==> !IsTorchOn(controller)
    ensures ToggleTorch(controller) == CallSetTorch(false) <==> IsTorchOn(controller)
  {
  }
}

/** src/components/Input/ZoomSlider.tsx */
module ZoomSlider {
  import opened Wrappers
  import opened Media
  import opened ControllerView

  /** The slider's props: `disabled`, `min`, `max`, `step`, `value`. */
  datatype Zoom = Zoom(disabled: bool, min: Option<real>, max: Option<real>, step: Option<real>, value: Option<real>)

  /** `controller?.capabilities?.zoom` */
  function ZoomCapability(controller: Option<View>): (z: Option<ZoomRange>)
    ensures z.Some? ==> controller.Some? && controller.value.capabilities.Some? && z == controller.value.capabilities.value.zoom
    ensures controller.Some? && controller.value.capabilities.Some? ==> z == controller.value.capabilities.value.zoom
  {
    if controller.Some? && controller.value.capabilities.Some? then controller.value.capabilities.value.zoom else None
  }

  /** The `zoom` descriptor. */
  function Descriptor(controller: Option<View>): (z: Zoom)
    ensures z.disabled <==> ZoomCapability(controller).None?
    ensures ZoomCapability(controller).Some? ==>
      var range := ZoomCapability(controller).value;
      z.min == Some(range.min) && z.max == Some(range.max) && z.step == range.step
    ensures z.disabled ==> z.min.None? && z.max.None? && z.step.None?
    ensures z.value == (if controller.Some? && controller.value.settings.Some? then controller.value.settings.value.zoom else None)
  {
    var zoom := ZoomCapability(controller);
    Zoom(
      zoom.None?,
      if zoom.Some? then Some(zoom.value.min) else None,
      if zoom.Some? then Some(zoom.value.max) else None,
      if zoom.Some? then zoom.value.step else None,
      if controller.Some? && controller.value.settings.Some? then controller.value.settings.value.zoom else None)
  }

  /** `onChange`: never a call while disabled, otherwise `setZoom` with the slider's new value. */
  function OnChange(controller: Option<View>, value: real): (c: Call)
    ensures Descriptor(controller).disabled ==> c == NoCall
    ensures !Descriptor(controller).disabled ==> c == CallSetZoom(value)
  {
    if Descriptor(controller).disabled then NoCall
    else if controller.None? then NoCall
    else CallSetZoom(value)
  }
}
