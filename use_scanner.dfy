/**
 * src/hooks/useScanner.tsx: the scanner controller hook.  It keeps a
 * snapshot of the session (`devices`, `stream`, `state`, `settings`,
 * `sizes`) that the video element's lifecycle events refresh, and exposes
 * `play`/`pause`/`stop`/`setTorch`/`setZoom`.  The snapshot only changes
 * when an event handler runs; the DOM decides when events fire, so
 * `Dispatch` is called by the environment.
 */
module UseScannerHook {
  import opened Wrappers
  import opened Events
  import opened Media
  import Session
  import Geometry

  const NoDevicesError := "No video input devices available"

  /** The facing mode of the startup request: the option when it is truthy, `'environment'` otherwise. */
  function StartupConstraints(facingMode: Option<string>): (c: Constraints)
    ensures c.deviceId.None? && c.facingMode.Some? && c.facingMode.value != ""
    ensures Truthy(facingMode) ==> c.facingMode == facingMode
    ensures !Truthy(facingMode) ==> c.facingMode == Some("environment")
  {
    FacingConstraints(if Truthy(facingMode) then facingMode.value else "environment")
  }

  /** The six registrations the mount effect makes. */
  const Registered: set<Listener> := {
    Listener(Play, SrcObjectChange), Listener(Playing, SrcObjectChange), Listener(Pause, SrcObjectChange),
    Listener(Emptied, SrcObjectChange), Listener(LoadedMetadata, SrcObjectChange), Listener(Resize, ResizeHandler)
  }

  /** Mounted, the hook refreshes its stream snapshot on exactly the lifecycle events of the `eventState` table. */
  lemma RegisteredCoversStateEvents(e: EventType)
    ensures Listener(e, SrcObjectChange) in Registered <==> e in StateEvents
    ensures Listener(e, ResizeHandler) in Registered <==> e == Resize
  {
  }

  class Controller {
    /** `videoRef.current`: `null` when no element is mounted. */
    const video: VideoElement?
    const camera: Camera
    /** `options?.facingMode` */
    const facingMode: Option<string>

    var devices: Option<seq<Device>>
    var stream: Option<Stream>
    var state: Option<ScannerState>
    var settings: Option<Settings>
    var sizes: Option<Geometry.Sizes>

    /** The camera is owned by the element's stream, and the snapshot only names tracks the camera handed out. */
    ghost predicate Valid()
      reads this, video, camera
    {
      && camera.Valid()
      && (video != null ==> Owns(video, camera))
      && (forall id :: id in TrackIds(stream) ==> id < camera.next)
    }

    /** The snapshot agrees with the element: what a lifecycle event handler leaves behind. */
    ghost predicate Synced()
      requires Valid() && video != null
      reads this, video, camera
    {
      stream == video.srcObject && settings == BoundSettings(video, camera)
    }

    constructor (video: VideoElement?, camera: Camera, facingMode: Option<string>)
      requires camera.Valid() && (video != null ==> Owns(video, camera))
      ensures Valid() && this.video == video && this.camera == camera && this.facingMode == facingMode
      ensures devices == None && stream == None && state == None && settings == None && sizes == None
    {
      this.video, this.camera, this.facingMode := video, camera, facingMode;
      devices, stream, state, settings, sizes := None, None, None, None, None;
    }

    /** `track`: the first track of the snapshot stream. */
    function Track(): (r: Option<Media.Track>)
      reads this
      ensures r.Some? <==> stream.Some? && |stream.value.tracks| > 0
      ensures r.Some? ==> r.value == stream.value.tracks[0] && r.value.id in TrackIds(stream)
    {
      FirstTrack(stream)
    }

    /** `capabilities`: those of `track`, `null` without one. */
    function Capabilities(): (r: Option<Media.Capabilities>)
      reads this
      ensures r.Some? <==> Track().Some?
      ensures r.Some? ==> r.value == stream.value.tracks[0].capabilities
    {
      if Track().Some? then Some(Track().value.capabilities) else None
    }

    /** `constraints`: those of `track`, `null` without one. */
    function Constraints(): (r: Option<Media.Constraints>)
      reads this
      ensures r.Some? <==> Track().Some?
      ensures r.Some? ==> r.value == stream.value.tracks[0].constraints
    {
      if Track().Some? then Some(Track().value.constraints) else None
    }

    /** Once synced, the snapshot's track is a live track of the camera. */
    lemma SyncedTrackIsLive()
      requires Valid() && video != null && Synced()
      ensures Track().Some? ==> camera.Live(Track().value.id)
      ensures Track().None? ==> forall id: nat :: !camera.Live(id)
    {
    }

    /** `play(constraints?)`; `accepted` is the element's answer to `video.play()`. */
    method Play(c: Option<Media.Constraints>, reply: Option<seq<TrackSpec>>, accepted: bool) returns (r: Outcome<string>)
      requires Valid() && (reply.Some? ==> |reply.value| > 0)
      modifies video, camera
      ensures Valid()
      ensures video == null ==> r == Pass && unchanged(camera)
      ensures video != null ==> video.listeners == old(video.listeners)
      ensures video != null && c.None? ==>
        && video.srcObject == old(video.srcObject) && unchanged(camera)
        && (r == Pass <==> accepted) && (accepted ==> !video.paused)
        && (!accepted ==> r == Fail(PlaybackError))
      ensures video != null && c.Some? ==>
        && camera.requests == old(camera.requests) + [c.value]
        && camera.stopped == old(camera.stopped) + TrackIds(old(video.srcObject))
        && (r == Pass <==> reply.Some? && accepted)
        && (reply.None? ==> r == Fail(Session.AcquisitionError) && video.srcObject == None)
        && (reply.Some? ==>
              && video.paused == !accepted && video.srcObject.Some?
              && (!accepted ==> r == Fail(PlaybackError))
              && forall id :: id in TrackIds(video.srcObject) <==> old(camera.next) <= id < camera.next)
    {
      r := Session.Play(video, camera, c, reply, accepted);
    }

    /** `pause()` */
    method Pause()
      requires Valid()
      modifies video
      ensures Valid()
      ensures video != null ==> video.paused && video.srcObject == old(video.srcObject) && video.listeners == old(video.listeners)
      ensures video != null && old(video.paused) ==> unchanged(video)
    {
      Session.Pause(video);
    }

    /** `stop()` */
    method Stop()
      requires Valid()
      modifies video, camera
      ensures Valid()
      ensures video == null ==> unchanged(camera)
      ensures video != null ==>
        && video.srcObject == None && video.paused && video.listeners == old(video.listeners)
        && camera.stopped == old(camera.stopped) + TrackIds(old(video.srcObject))
        && forall id: nat :: !camera.Live(id)
    {
      Session.Stop(video, camera);
    }

    /** `handleSrcObjectChange`: refreshes stream, settings and state from the element and the event type. */
    method HandleSrcObjectChange(e: EventType)
      requires Valid() && video != null
      modifies this
      ensures Valid() && Synced()
      ensures state == EventState(e)
      ensures devices == old(devices) && sizes == old(sizes)
    {
      stream := video.srcObject;
      settings := BoundSettings(video, camera);
      state := EventState(e);
      forall id | id in TrackIds(stream)
        ensures id < camera.next
      {
        assert camera.Live(id);
      }
    }

    /** `handleResize`: `measured` is the element's `videoWidth/Height` and `clientWidth/Height`. */
    method HandleResize(measured: Geometry.Sizes)
      requires Valid() && video != null
      modifies this
      ensures Valid() && sizes == Some(measured)
      ensures devices == old(devices) && stream == old(stream) && state == old(state) && settings == old(settings)
    {
      sizes := Some(measured);
    }

    /** The element dispatches an event of type `e` to the handlers registered for it. */
    method Dispatch(e: EventType, measured: Geometry.Sizes)
      requires Valid() && video != null
      modifies this
      ensures Valid() && devices == old(devices)
      ensures Listener(e, SrcObjectChange) in video.listeners ==> Synced() && state == EventState(e)
      ensures Listener(e, SrcObjectChange) !in video.listeners ==>
        stream == old(stream) && state == old(state) && settings == old(settings)
      ensures sizes == if Listener(e, ResizeHandler) in video.listeners then Some(measured) else old(sizes)
    {
      if Listener(e, SrcObjectChange) in video.listeners {
        HandleSrcObjectChange(e);
      }
      if Listener(e, ResizeHandler) in video.listeners {
        HandleResize(measured);
      }
    }

    /** The mount effect's registrations (none without an element). */
    method Mount()
      modifies video
      ensures video != null ==> video.listeners == old(video.listeners) + Registered
      ensures video != null ==> video.srcObject == old(video.srcObject) && video.paused == old(video.paused)
    {
      if video == null {
        return;
      }
      video.AddListener(Listener(EventType.Play, SrcObjectChange));
      video.AddListener(Listener(Playing, SrcObjectChange));
      video.AddListener(Listener(EventType.Pause, SrcObjectChange));
      video.AddListener(Listener(Emptied, SrcObjectChange));
      video.AddListener(Listener(LoadedMetadata, SrcObjectChange));
      video.AddListener(Listener(Resize, ResizeHandler));
    }

    /** The mount effect's cleanup removes every registration it made. */
    method Unmount()
      modifies video
      ensures video != null ==> video.listeners == old(video.listeners) - Registered
      ensures video != null ==> video.srcObject == old(video.srcObject) && video.paused == old(video.paused)
    {
      if video == null {
        return;
      }
      video.RemoveListener(Listener(EventType.Play, SrcObjectChange));
      video.RemoveListener(Listener(Playing, SrcObjectChange));
      video.RemoveListener(Listener(EventType.Pause, SrcObjectChange));
      video.RemoveListener(Listener(Emptied, SrcObjectChange));
      video.RemoveListener(Listener(LoadedMetadata, SrcObjectChange));
      video.RemoveListener(Listener(Resize, ResizeHandler));
    }

    /**
     * The mount effect's startup: `listed` is what device enumeration
     * answers, `reply` what `getUserMedia` answers and `accepted` whether
     * `video.play()` resolves.  No element: nothing happens.  No device: the
     * list is stored and the effect fails before any request.  Otherwise the
     * facing-mode request is played.
     */
    method Startup(listed: seq<Device>, reply: Option<seq<TrackSpec>>, accepted: bool) returns (r: Outcome<string>)
      requires Valid() && (reply.Some? ==> |reply.value| > 0)
      modifies this, video, camera
      ensures Valid()
      ensures video == null ==> r == Pass && unchanged(this) && unchanged(camera)
      ensures video != null ==> devices == Some(listed) && video.listeners == old(video.listeners)
      ensures video != null ==> stream == old(stream) && state == old(state) && settings == old(settings)
      ensures video != null && |listed| == 0 ==> r == Fail(NoDevicesError) && unchanged(camera) && unchanged(video)
      ensures video != null && |listed| > 0 ==>
        && camera.requests == old(camera.requests) + [StartupConstraints(facingMode)]
        && camera.stopped == old(camera.stopped) + TrackIds(old(video.srcObject))
        && (r == Pass <==> reply.Some? && accepted)
        && (reply.Some? ==> video.paused == !accepted && video.srcObject.Some?)
    {
      if video == null {
        return Pass;
      }
      devices := Some(listed);
      if |listed| < 1 {
        return Fail(NoDevicesError);
      }
      r := Play(Some(StartupConstraints(facingMode)), reply, accepted);
    }

    /**
     * `setTorch(value)`: applied only to a track whose `torch` capability is
     * truthy.  `readback` is what the hardware reports afterwards, `None`
     * when `applyConstraints` rejects; the rejection reaches the caller.
     */
    method SetTorch(value: bool, readback: Option<Media.Settings>) returns (r: Outcome<string>)
      requires Valid()
      modifies this, camera
      ensures Valid()
      ensures stream == old(stream) && state == old(state) && devices == old(devices) && sizes == old(sizes)
      ensures Track().None? || Capabilities().value.torch != Some(true) ==> r == Pass && unchanged(camera) && settings == old(settings)
      ensures Track().Some? && Capabilities().value.torch == Some(true) ==>
        && camera.applied == old(camera.applied) + [(Track().value.id, TorchSet(value))]
        && (r == Pass <==> readback.Some?)
        && (readback.Some? ==> settings == readback)
        && (readback.None? ==> r == Fail(ConstraintError) && settings == old(settings))
    {
      var track := Track();
      if track.None? {
        return Pass;
      }
      if Capabilities().value.torch != Some(true) {
        return Pass;
      }
      var read := camera.ApplyConstraints(track.value.id, TorchSet(value), readback);
      if read.None? {
        return Fail(ConstraintError);
      }
      settings := read;
      r := Pass;
    }

    /** `setZoom(value)`: applied only to a track that reports a zoom capability; a rejection reaches the caller. */
    method SetZoom(value: real, readback: Option<Media.Settings>) returns (r: Outcome<string>)
      requires Valid()
      modifies this, camera
      ensures Valid()
      ensures stream == old(stream) && state == old(state) && devices == old(devices) && sizes == old(sizes)
      ensures Track().None? || Capabilities().value.zoom.None? ==> r == Pass && unchanged(camera) && settings == old(settings)
      ensures Track().Some? && Capabilities().value.zoom.Some? ==>
        && camera.applied == old(camera.applied) + [(Track().value.id, ZoomSet(value))]
        && (r == Pass <==> readback.Some?)
        && (readback.Some? ==> settings == readback)
        && (readback.None? ==> r == Fail(ConstraintError) && settings == old(settings))
    {
      var track := Track();
      if track.None? {
        return Pass;
      }
      if Capabilities().value.zoom.None? {
        return Pass;
      }
      var read := camera.ApplyConstraints(track.value.id, ZoomSet(value), readback);
      if read.None? {
        return Fail(ConstraintError);
      }
      settings := read;
      r := Pass;
    }
  }
}
