/**
 * src/hooks/index.ts: the earlier hook revision that src/components/Scanner.tsx
 * uses.  `useVideoInputDevices` lists the capture devices once; `useScanner`
 * takes the element as an argument, refreshes its snapshot on five lifecycle
 * events, updates `state` only for event types of the `eventState` table, and
 * derives `deviceId` from the track's capabilities.
 */
module ScannerHooks {
  import opened Wrappers
  import opened Events
  import opened Media

  const NoDevicesError := "No video input devices available"

  /** `useVideoInputDevices`: the list is `undefined` until enumeration answers. */
  class VideoInputDevices {
    var devices: Option<seq<Device>>

    constructor ()
      ensures devices == None
    {
      devices := None;
    }

    /** Enumeration answers `listed`: it is stored even when empty, and an empty list then raises. */
    method Load(listed: seq<Device>) returns (r: Outcome<string>)
      modifies this
      ensures devices == Some(listed)
      ensures r == Fail(NoDevicesError) <==> |listed| < 1
      ensures r.Pass? <==> |listed| >= 1
    {
      devices := Some(listed);
      if |listed| < 1 {
        return Fail(NoDevicesError);
      }
      r := Pass;
    }
  }

  /** The five registrations of the effect. */
  const Registered: set<Listener> := {
    Listener(Play, SrcObjectChange), Listener(Playing, SrcObjectChange), Listener(Pause, SrcObjectChange),
    Listener(Emptied, SrcObjectChange), Listener(LoadedMetadata, SrcObjectChange)
  }

  /** The four registrations the cleanup adds again instead of removing them. */
  const Readded: set<Listener> := {
    Listener(Play, SrcObjectChange), Listener(Playing, SrcObjectChange), Listener(Pause, SrcObjectChange),
    Listener(LoadedMetadata, SrcObjectChange)
  }

  /** Exactly five listeners, one for each key of the `eventState` table. */
  lemma RegisteredIsStateEvents()
    ensures |Registered| == 5
    ensures forall l :: l in Registered <==> l.handler == SrcObjectChange && l.event in StateEvents
  {
    assert Registered == set e | e in StateEvents :: Listener(e, SrcObjectChange);
  }

  /** The `deviceId` the hook derives: `capabilities?.deviceId || null`. */
  function CapabilityDeviceId(capabilities: Option<Capabilities>): (id: Option<string>)
    ensures id.Some? <==> capabilities.Some? && Truthy(capabilities.value.deviceId)
    ensures id.Some? ==> id == capabilities.value.deviceId && id.value != ""
  {
    if capabilities.Some? && Truthy(capabilities.value.deviceId) then capabilities.value.deviceId else None
  }

  class ScannerHook {
    /** The `videoElement` argument (`videoRef.current` of the caller). */
    const video: VideoElement?
    const camera: Camera

    var stream: Option<Stream>
    var state: Option<ScannerState>
    var settings: Option<Settings>

    ghost predicate Valid()
      reads this, video, camera
    {
      && camera.Valid()
      && (video != null ==> Owns(video, camera))
      && (forall id :: id in TrackIds(stream) ==> id < camera.next)
    }

    constructor (video: VideoElement?, camera: Camera)
      requires camera.Valid() && (video != null ==> Owns(video, camera))
      ensures Valid() && this.video == video && this.camera == camera
      ensures stream == None && state == None && settings == None
    {
      this.video, this.camera := video, camera;
      stream, state, settings := None, None, None;
    }

    /** `track`: the first track of the snapshot stream, or `null`. */
    function Track(): (r: Option<Media.Track>)
      reads this
      ensures r.Some? <==> stream.Some? && |stream.value.tracks| > 0
      ensures r.Some? ==> r.value == stream.value.tracks[0] && r.value.id in TrackIds(stream)
    {
      FirstTrack(stream)
    }

    /** `capabilities`: `null` when `track` is. */
    function Capabilities(): (r: Option<Media.Capabilities>)
      reads this
      ensures r.Some? <==> Track().Some?
      ensures r.Some? ==> r.value == stream.value.tracks[0].capabilities
    {
      if Track().Some? then Some(Track().value.capabilities) else None
    }

    /** `constraints`: `null` when `track` is. */
    function Constraints(): (r: Option<Media.Constraints>)
      reads this
      ensures r.Some? <==> Track().Some?
      ensures r.Some? ==> r.value == stream.value.tracks[0].constraints
    {
      if Track().Some? then Some(Track().value.constraints) else None
    }

    /** `deviceId`: the track's capability device id when it is truthy, else `null`. */
    function DeviceId(): (r: Option<string>)
      reads this
      ensures r.Some? ==> Track().Some? && r == stream.value.tracks[0].capabilities.deviceId && r.value != ""
      ensures Track().Some? && Truthy(stream.value.tracks[0].capabilities.deviceId) ==> r.Some?
    {
      CapabilityDeviceId(Capabilities())
    }

    /**
     * `handleSrcObjectChange`: `stream` and `settings` are re-read from the
     * element for every event; `state` changes only when the type is a key
     * of `eventState`.
     */
    method HandleSrcObjectChange(e: EventType)
      requires Valid() && video != null
      modifies this
      ensures Valid()
      ensures stream == video.srcObject && settings == BoundSettings(video, camera)
      ensures e in StateEvents ==> state == EventState(e)
      ensures e !in StateEvents ==> state == old(state)
    {
      stream := video.srcObject;
      settings := BoundSettings(video, camera);
      if e in StateEvents {
        state := EventState(e);
      }
      forall id | id in TrackIds(stream)
        ensures id < camera.next
      {
        assert camera.Live(id);
      }
    }

    /** The element dispatches an event of type `e` to the handler when it is registered for `e`. */
    method Dispatch(e: EventType)
      requires Valid() && video != null
      modifies this
      ensures Valid()
      ensures Listener(e, SrcObjectChange) in video.listeners ==>
        && stream == video.srcObject && settings == BoundSettings(video, camera)
        && state == (if e in StateEvents then EventState(e) else old(state))
      ensures Listener(e, SrcObjectChange) !in video.listeners ==>
        stream == old(stream) && state == old(state) && settings == old(settings)
    {
      if Listener(e, SrcObjectChange) in video.listeners {
        HandleSrcObjectChange(e);
      }
    }

    /** The effect's registrations (none without an element). */
    method Mount()
      modifies video
      ensures video != null ==> video.listeners == old(video.listeners) + Registered
      ensures video != null ==> video.srcObject == old(video.srcObject) && video.paused == old(video.paused)
    {
      if video == null {
        return;
      }
      video.AddListener(Listener(EventType.Play, SrcObjectChange));
      video.AddListener(Listener(Playing, SrcObjectChange));
      video.AddListener(Listener(EventType.Pause, SrcObjectChange));
      video.AddListener(Listener(Emptied, SrcObjectChange));
      video.AddListener(Listener(LoadedMetadata, SrcObjectChange));
    }

    /** The effect's cleanup as written: only `emptied` is removed, the other four are added again. */
    method UnmountAsWritten()
      modifies video
      ensures video != null ==> video.listeners == (old(video.listeners) + Readded) - {Listener(Emptied, SrcObjectChange)}
      ensures video != null ==> video.srcObject == old(video.srcObject) && video.paused == old(video.paused)
    {
      if video == null {
        return;
      }
      video.AddListener(Listener(EventType.Play, SrcObjectChange));
      video.AddListener(Listener(Playing, SrcObjectChange));
      video.AddListener(Listener(EventType.Pause, SrcObjectChange));
      video.RemoveListener(Listener(Emptied, SrcObjectChange));
      video.AddListener(Listener(LoadedMetadata, SrcObjectChange));
    }

    /** The cleanup with every registration removed. */
    method Unmount()
      modifies video
      ensures video != null ==> video.listeners == old(video.listeners) - Registered
      ensures video != null ==> video.srcObject == old(video.srcObject) && video.paused == old(video.paused)
    {
      if video == null {
        return;
      }
      video.RemoveListener(Listener(EventType.Play, SrcObjectChange));
      video.RemoveListener(Listener(Playing, SrcObjectChange));
      video.RemoveListener(Listener(EventType.Pause, SrcObjectChange));
      video.RemoveListener(Listener(Emptied, SrcObjectChange));
      video.RemoveListener(Listener(LoadedMetadata, SrcObjectChange));
    }
  }

  /**
   * Mounting on an element with no listeners and running the cleanup as
   * written leaves four handlers of the unmounted hook registered, so later
   * `play`, `playing`, `pause` and `loadedmetadata` events still reach it.
   */
  method CleanupLeavesListeners(h: ScannerHook) returns (remaining: set<Listener>)
    requires h.video != null && h.video.listeners == {}
    modifies h.video
    ensures remaining == h.video.listeners && remaining == Readded && |remaining| == 4
    ensures Listener(Play, SrcObjectChange) in remaining
  {
    h.Mount();
    h.UnmountAsWritten();
    remaining := h.video.listeners;
  }

  /** With the corrected cleanup the element is left with no listeners of the hook. */
  method CleanupRemovesListeners(h: ScannerHook) returns (remaining: set<Listener>)
    requires h.video != null && h.video.listeners == {}
    modifies h.video
    ensures remaining == h.video.listeners && remaining == {}
  {
    h.Mount();
    h.Unmount();
    remaining := h.video.listeners;
  }
}
