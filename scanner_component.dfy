/**
 * src/components/Scanner.tsx: the scanner component built on the hooks of
 * src/hooks/index.ts.  It plays the default camera once devices are
 * listed, arms a scan interval and a stop timeout while the session is
 * PLAYING, re-arms the stop timeout on every decoded result, and offers
 * play/pause, device rotation, torch and zoom controls.
 */
module ScannerComponent {
  import opened Wrappers
  import opened Events
  import opened Media
  import opened Timers
  import opened Rotation
  import opened ControllerView
  import Session
  import ScannerHooks

  /** The props' defaults: `timeout=30000`, `interval=500`, `scale=0.5`. */
  const DefaultTimeout := 30000
  const DefaultInterval := 500
  const DefaultScale: real := 0.5

  /**
   * `toggleDevice`'s request: none without a truthy device id or with at
   * most one device; otherwise the device after the current one, wrapping
   * after the last and starting at the first when the id is not listed.
   */
  function ToggleDeviceRequest(devices: Option<seq<Device>>, deviceId: Option<string>): (c: Option<Media.Constraints>)
    ensures c.Some? <==> Truthy(deviceId) && devices.Some? && |devices.value| > 1
    ensures c.Some? ==>
      var i := FindIndex(devices.value, deviceId.value);
      && (i >= 0 ==> c.value == DeviceConstraints(devices.value[(i + 1) % |devices.value|].deviceId))
      && (i == -1 ==> c.value == DeviceConstraints(devices.value[0].deviceId))
  {
    if !Truthy(deviceId) then None
    else if devices.None? || |devices.value| <= 1 then None
    else
      NextDeviceIdSelects(devices.value, deviceId.value, FindIndex(devices.value, deviceId.value));
      Some(DeviceConstraints(NextDeviceId(devices.value, deviceId.value)))
  }

  /**
   * `toggleTorch`'s request: only with a track whose `torch` capability is
   * truthy, and then the negation of the current setting (`!undefined` is
   * `true`, so a missing setting requests on).
   */
  function TorchRequest(track: Option<Track>, capabilities: Option<Media.Capabilities>, settings: Option<Settings>): (on: Option<bool>)
    ensures on.Some? <==> track.Some? && capabilities.Some? && capabilities.value.torch == Some(true)
    ensures on == Some(false) <==> on.Some? && settings.Some? && settings.value.torch == Some(true)
  {
    if track.Some? && capabilities.Some? && capabilities.value.torch == Some(true) then
      Some(!(settings.Some? && settings.value.torch == Some(true)))
    else None
  }

  /** When the track reports back the requested torch setting, the next click requests the opposite one. */
  lemma TorchRequestAlternates(track: Option<Track>, capabilities: Option<Media.Capabilities>, settings: Option<Settings>, readback: Settings)
    requires TorchRequest(track, capabilities, settings).Some?
    requires readback.torch == Some(TorchRequest(track, capabilities, settings).value)
    ensures TorchRequest(track, capabilities, Some(readback)) == Some(!TorchRequest(track, capabilities, settings).value)
  {
  }

  /** `onChangeZoom`'s request: only with a track that reports a zoom capability. */
  function ZoomRequest(track: Option<Track>, capabilities: Option<Media.Capabilities>, value: real): (level: Option<real>)
    ensures level.Some? <==> track.Some? && capabilities.Some? && capabilities.value.zoom.Some?
    ensures level.Some? ==> level.value == value
  {
    if track.Some? && capabilities.Some? && capabilities.value.zoom.Some? then Some(value) else None
  }

  /** A source rectangle of `drawImage`. */
  datatype Rect = Rect(x: real, y: real, w: real, h: real)

  /** `scanFrame`'s source rectangle: the central `scale` part of a `vw` by `vh` frame. */
  function CropSource(vw: real, vh: real, scale: real): (r: Rect)
    ensures r.w == vw * scale && r.h == vh * scale
  {
    Rect((vw - vw * scale) / 2.0, (vh - vh * scale) / 2.0, vw * scale, vh * scale)
  }

  /** The crop is centred on the frame, and for `0 <= scale <= 1` it lies inside the frame. */
  lemma CropSourceCentred(vw: real, vh: real, scale: real)
    ensures CropSource(vw, vh, scale).x + CropSource(vw, vh, scale).w / 2.0 == vw / 2.0
    ensures CropSource(vw, vh, scale).y + CropSource(vw, vh, scale).h / 2.0 == vh / 2.0
    ensures vw >= 0.0 && vh >= 0.0 && 0.0 <= scale <= 1.0 ==>
      var r := CropSource(vw, vh, scale);
      0.0 <= r.x && r.x + r.w <= vw && 0.0 <= r.y && r.y + r.h <= vh
  {
    var r := CropSource(vw, vh, scale);
    if vw >= 0.0 && vh >= 0.0 && 0.0 <= scale <= 1.0 {
      assert vw * scale <= vw && vh * scale <= vh by {
        assert vw * (1.0 - scale) >= 0.0;
        assert vh * (1.0 - scale) >= 0.0;
      }
    }
  }

  /** What a decode attempt yields: no result, a result carrying text, or a rejection. */
  datatype DecodeOutcome = NoResult | Decoded(text: string) | DecodeFailed(error: string)

  /** Which callback prop a decode attempt invokes. */
  datatype Notice = NoNotice | OnDecoded(text: string) | OnDecodeError(error: string)

  class Component {
    const hook: ScannerHooks.ScannerHook
    const deviceList: ScannerHooks.VideoInputDevices
    const window: TimerTable
    const timeout: int
    const interval: int
    /** `scanInterval.current` and `stopTimeout.current` (0 names no timer). */
    var scanInterval: nat
    var stopTimeout: nat

    ghost predicate Valid()
      reads this, hook, hook.video, hook.camera, window
    {
      hook.Valid() && window.Valid() && scanInterval < window.nextId && stopTimeout < window.nextId
    }

    constructor (hook: ScannerHooks.ScannerHook, deviceList: ScannerHooks.VideoInputDevices, window: TimerTable, timeout: int, interval: int)
      requires hook.Valid() && window.Valid()
      ensures Valid() && this.hook == hook && this.deviceList == deviceList && this.window == window
      ensures this.timeout == timeout && this.interval == interval && scanInterval == 0 && stopTimeout == 0
    {
      this.hook, this.deviceList, this.window := hook, deviceList, window;
      this.timeout, this.interval := timeout, interval;
      scanInterval, stopTimeout := 0, 0;
    }

    /** The effect on `devices`: once at least one device is listed, the default constraints are played. */
    method OnDevices(reply: Option<seq<TrackSpec>>, accepted: bool) returns (r: Outcome<string>)
      requires Valid() && (reply.Some? ==> |reply.value| > 0)
      modifies hook.video, hook.camera
      ensures Valid()
      ensures deviceList.devices.None? || |deviceList.devices.value| < 1 ==> r == Pass && (hook.video != null ==> unchanged(hook.video)) && unchanged(hook.camera)
      ensures deviceList.devices.Some? && |deviceList.devices.value| >= 1 && hook.video != null ==>
        && hook.camera.requests == old(hook.camera.requests) + [DefaultConstraints]
        && hook.camera.stopped == old(hook.camera.stopped) + TrackIds(old(hook.video.srcObject))
        && (r == Pass <==> reply.Some? && accepted)
    {
      r := Pass;
      if deviceList.devices.Some? && 1 <= |deviceList.devices.value| {
        r := Session.Play(hook.video, hook.camera, Some(DefaultConstraints), reply, accepted);
      }
    }

    /**
     * The effect on the session state: both timers are cleared, and both are
     * armed again exactly when the state is PLAYING.
     */
    method TimerEffect()
      requires Valid()
      modifies this, window
      ensures Valid()
      ensures old(scanInterval) !in window.pending && old(stopTimeout) !in window.pending
      ensures scanInterval in window.pending <==> hook.state == Some(PLAYING)
      ensures stopTimeout in window.pending <==> hook.state == Some(PLAYING)
      ensures hook.state == Some(PLAYING) ==>
        && window.pending[scanInterval] == Timer(true, interval, ScanFrame)
        && window.pending[stopTimeout] == Timer(false, timeout, StopSession)
        && window.pending == (old(window.pending) - {old(scanInterval), old(stopTimeout)})[scanInterval := Timer(true, interval, ScanFrame)][stopTimeout := Timer(false, timeout, StopSession)]
      ensures hook.state != Some(PLAYING) ==>
        && window.pending == old(window.pending) - {old(scanInterval), old(stopTimeout)}
        && scanInterval == old(scanInterval) && stopTimeout == old(stopTimeout)
    {
      window.Clear(scanInterval);
      window.Clear(stopTimeout);
      if hook.state == Some(PLAYING) {
        scanInterval := window.Set(Timer(true, interval, ScanFrame));
        stopTimeout := window.Set(Timer(false, timeout, StopSession));
      }
    }

    /** The effect's cleanup on unmount: both timers are cleared. */
    method Unmount()
      requires Valid()
      modifies window
      ensures Valid()
      ensures window.pending == old(window.pending) - {scanInterval, stopTimeout}
    {
      window.Clear(scanInterval);
      window.Clear(stopTimeout);
    }

    /** The stop timeout fires: a one-shot timer leaves the table and the session is stopped. */
    method OnStopTimeout()
      requires Valid() && stopTimeout in window.pending
      modifies window, hook.video, hook.camera
      ensures Valid()
      ensures window.pending == old(window.pending) - {stopTimeout}
      ensures hook.video != null ==>
        && hook.video.srcObject == None
        && hook.camera.stopped == old(hook.camera.stopped) + TrackIds(old(hook.video.srcObject))
        && forall id: nat :: !hook.camera.Live(id)
    {
      window.Clear(stopTimeout);
      Session.Stop(hook.video, hook.camera);
    }

    /**
     * A decode attempt settles.  A result re-arms the stop timeout for the
     * full `timeout` and reaches `onDecoded`; a rejection reaches
     * `onDecodeError` and, like no result, leaves the timers alone.
     */
    method OnDecodeOutcome(outcome: DecodeOutcome) returns (notice: Notice)
      requires Valid()
      modifies this, window
      ensures Valid() && scanInterval == old(scanInterval)
      ensures outcome.NoResult? ==> notice == NoNotice && unchanged(this, window)
      ensures outcome.DecodeFailed? ==> notice == OnDecodeError(outcome.error) && unchanged(this, window)
      ensures outcome.Decoded? ==>
        && notice == OnDecoded(outcome.text)
        && stopTimeout == old(window.nextId) && old(stopTimeout) !in window.pending
        && window.pending == (old(window.pending) - {old(stopTimeout)})[stopTimeout := Timer(false, timeout, StopSession)]
    {
      match outcome
      case NoResult =>
        notice := NoNotice;
      case DecodeFailed(error) =>
        notice := OnDecodeError(error);
      case Decoded(text) =>
        window.Clear(stopTimeout);
        stopTimeout := window.Set(Timer(false, timeout, StopSession));
        notice := OnDecoded(text);
    }

    /** `togglePlay`: PLAYING pauses, PAUSED resumes in place, any other state plays the known device or the default. */
    method TogglePlay(reply: Option<seq<TrackSpec>>, accepted: bool) returns (r: Outcome<string>)
      requires Valid() && (reply.Some? ==> |reply.value| > 0)
      modifies hook.video, hook.camera
      ensures Valid()
      ensures hook.state == Some(PLAYING) ==> r == Pass && unchanged(hook.camera)
      ensures hook.state == Some(PLAYING) && hook.video != null ==>
        hook.video.paused && hook.video.srcObject == old(hook.video.srcObject)
      ensures hook.state == Some(PAUSED) && hook.video != null ==>
        && (r == Pass <==> accepted) && (accepted ==> !hook.video.paused)
        && hook.video.srcObject == old(hook.video.srcObject) && unchanged(hook.camera)
      ensures hook.state != Some(PLAYING) && hook.state != Some(PAUSED) && hook.video != null ==>
        && hook.camera.requests == old(hook.camera.requests) +
             [if hook.DeviceId().Some? then DeviceConstraints(hook.DeviceId().value) else DefaultConstraints]
        && hook.camera.stopped == old(hook.camera.stopped) + TrackIds(old(hook.video.srcObject))
        && (r == Pass <==> reply.Some? && accepted)
        && (reply.None? ==> r == Fail(Session.AcquisitionError) && hook.video.srcObject == None)
        && (reply.Some? ==>
              && hook.video.srcObject.Some? && hook.video.paused == !accepted
              && forall id :: id in TrackIds(hook.video.srcObject) <==> old(hook.camera.next) <= id < hook.camera.next)
    {
      var call := TogglePlayCall(hook.state, hook.DeviceId());
      r := Pass;
      match call {
        case CallPause =>
          Session.Pause(hook.video);
        case CallPlay(c) =>
          r := Session.Play(hook.video, hook.camera, c, reply, accepted);
        case _ =>
      }
    }

    /** `toggleDevice`: plays the next listed device, or does nothing (see `ToggleDeviceRequest`). */
    method ToggleDevice(reply: Option<seq<TrackSpec>>, accepted: bool) returns (r: Outcome<string>)
      requires Valid() && (reply.Some? ==> |reply.value| > 0)
      modifies hook.video, hook.camera
      ensures Valid()
      ensures ToggleDeviceRequest(deviceList.devices, hook.DeviceId()).None? ==> r == Pass && (hook.video != null ==> unchanged(hook.video)) && unchanged(hook.camera)
      ensures ToggleDeviceRequest(deviceList.devices, hook.DeviceId()).Some? && hook.video != null ==>
        && hook.camera.requests == old(hook.camera.requests) + [ToggleDeviceRequest(deviceList.devices, hook.DeviceId()).value]
        && hook.camera.stopped == old(hook.camera.stopped) + TrackIds(old(hook.video.srcObject))
        && (r == Pass <==> reply.Some? && accepted)
    {
      var request := ToggleDeviceRequest(deviceList.devices, hook.DeviceId());
      r := Pass;
      if request.Some? {
        r := Session.Play(hook.video, hook.camera, request, reply, accepted);
      }
    }

    /** `toggleTorch` followed by `setSettings(track.getSettings())`; `readback` is what the track reports. */
    method ToggleTorch(readback: Option<Settings>)
      requires Valid()
      modifies hook, hook.camera
      ensures Valid() && hook.stream == old(hook.stream) && hook.state == old(hook.state)
      ensures var on := old(TorchRequest(hook.Track(), hook.Capabilities(), hook.settings));
        && (on.None? ==> unchanged(hook.camera) && hook.settings == old(hook.settings))
        && (on.Some? ==>
              && hook.camera.applied == old(hook.camera.applied) + [(hook.Track().value.id, TorchSet(on.value))]
              && hook.settings == (if readback.Some? then readback else old(hook.settings)))
    {
      var on := TorchRequest(hook.Track(), hook.Capabilities(), hook.settings);
      if on.Some? {
        var read := hook.camera.ApplyConstraints(hook.Track().value.id, TorchSet(on.value), readback);
        if read.Some? {
          hook.settings := read;
        }
      }
    }

    /** `onChangeZoom` with the slider's new value, followed by `setSettings(track.getSettings())`. */
    method OnChangeZoom(value: real, readback: Option<Settings>)
      requires Valid()
      modifies hook, hook.camera
      ensures Valid() && hook.stream == old(hook.stream) && hook.state == old(hook.state)
      ensures var level := ZoomRequest(hook.Track(), hook.Capabilities(), value);
        && (level.None? ==> unchanged(hook.camera) && hook.settings == old(hook.settings))
        && (level.Some? ==>
              && hook.camera.applied == old(hook.camera.applied) + [(hook.Track().value.id, ZoomSet(value))]
              && hook.settings == (if readback.Some? then readback else old(hook.settings)))
    {
      var level := ZoomRequest(hook.Track(), hook.Capabilities(), value);
      if level.Some? {
        var read := hook.camera.ApplyConstraints(hook.Track().value.id, ZoomSet(level.value), readback);
        if read.Some? {
          hook.settings := read;
        }
      }
    }
  }
}
