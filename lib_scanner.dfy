/**
 * src/lib/Scanner.tsx: the library's scanner component.  It keeps its own
 * `videoState` ('playing' | 'paused' | 'stopped') and a `streamRef`, probes
 * the camera once at startup to learn the initial device id, rebinds a
 * stream whenever the device id changes, and arms its scan and stop timers
 * while playing.
 */
module LibScanner {
  import opened Wrappers
  import opened Media
  import opened Timers
  import Session

  /** `VideoState` */
  datatype VideoState = playing | paused | stopped

  /** `isPlaying`: neither paused nor stopped. */
  predicate IsPlaying(s: VideoState): (b: bool)
    ensures b <==> s != paused && s != stopped
  {
    s == playing
  }

  /** `isPaused`: neither playing nor stopped. */
  predicate IsPaused(s: VideoState): (b: bool)
    ensures b <==> s != playing && s != stopped
  {
    s == paused
  }

  /** `isStopped`: neither playing nor paused. */
  predicate IsStopped(s: VideoState): (b: bool)
    ensures b <==> s != playing && s != paused
  {
    s == stopped
  }

  /** Exactly one of `isPlaying`, `isPaused`, `isStopped` holds. */
  lemma ExactlyOneFlag(s: VideoState)
    ensures (if IsPlaying(s) then 1 else 0) + (if IsPaused(s) then 1 else 0) + (if IsStopped(s) then 1 else 0) == 1
  {
  }

  /** The probe's video constraints: the `constraints` prop, else `{facingMode: 'environment'}`. */
  function ProbeConstraints(constraints: Option<Constraints>): (c: Constraints)
    ensures constraints.Some? ==> c == constraints.value
    ensures constraints.None? ==> c.facingMode == Some("environment") && c.deviceId.None?
  {
    if constraints.Some? then constraints.value else FacingConstraints("environment")
  }

  class Player {
    /** `videoRef.current` */
    const video: VideoElement?
    const camera: Camera
    const window: TimerTable
    /**
     * The `constraints`, `timeout` and `interval` props.  The source types
     * `constraints` as a whole `MediaStreamConstraints` and passes it to the
     * probe's `getUserMedia` as is; the model keeps only its video part.
     */
    const constraints: Option<Constraints>
    const timeout: int
    const interval: int

    var devices: seq<Device>
    /** `currentDevideId` */
    var currentDeviceId: Option<string>
    var videoState: VideoState
    var streamRef: Option<Stream>
    /** `scanInterval.current` and `stopTimeout.current` (0 names no timer). */
    var scanInterval: nat
    var stopTimeout: nat

    ghost predicate Valid()
      reads this, video, camera, window
    {
      && camera.Valid() && window.Valid()
      && scanInterval < window.nextId && stopTimeout < window.nextId
      && (forall id :: id in TrackIds(streamRef) ==> id < camera.next)
    }

    /**
     * The session invariant of this component: only `streamRef` may hold the
     * camera, the element shows `streamRef` or nothing, a stopped component
     * holds no live track, and a playing or paused one shows `streamRef`
     * with all its tracks live.
     */
    ghost predicate Owned()
      requires Valid()
      reads this, video, camera, window
    {
      && (forall id: nat :: camera.Live(id) ==> id in TrackIds(streamRef))
      && (video != null && video.srcObject.Some? ==> video.srcObject == streamRef)
      && (videoState == stopped ==> forall id: nat :: !camera.Live(id))
      && (videoState != stopped ==>
            && video != null && video.srcObject == streamRef && streamRef.Some?
            && forall id :: id in TrackIds(streamRef) ==> camera.Live(id))
    }

    constructor (video: VideoElement?, camera: Camera, window: TimerTable, constraints: Option<Constraints>, timeout: int, interval: int)
      requires camera.Valid() && window.Valid()
      requires forall id: nat :: !camera.Live(id)
      requires video != null ==> video.srcObject == None
      ensures Valid() && Owned()
      ensures this.video == video && this.camera == camera && this.window == window
      ensures this.constraints == constraints && this.timeout == timeout && this.interval == interval
      ensures devices == [] && currentDeviceId == None && videoState == stopped && streamRef == None
      ensures scanInterval == 0 && stopTimeout == 0
    {
      this.video, this.camera, this.window := video, camera, window;
      this.constraints, this.timeout, this.interval := constraints, timeout, interval;
      devices, currentDeviceId, videoState, streamRef := [], None, stopped, None;
      scanInterval, stopTimeout := 0, 0;
    }

    /**
     * `playVideo`: nothing without an element or a truthy device id.  From a
     * state other than paused a stream for the current device is acquired
     * and bound; from paused playback only resumes.  A rejected acquisition
     * ends the call; so does a rejected `video.play()` (`accepted` is false),
     * after the new stream is already bound.  Otherwise the state becomes
     * playing.  `Owned` is kept when the call starts from stopped or paused,
     * unless it fails on playback from stopped: that leaves the component
     * stopped while the new stream's tracks are live.  From playing the new
     * stream replaces `streamRef` while the old one's tracks stay live, so
     * nothing is promised about `Owned` there.
     */
    method PlayVideo(reply: Option<seq<TrackSpec>>, accepted: bool) returns (r: Outcome<string>)
      requires Valid() && (reply.Some? ==> |reply.value| > 0)
      modifies this, video, camera
      ensures Valid() && camera.next >= old(camera.next)
      ensures devices == old(devices) && currentDeviceId == old(currentDeviceId)
      ensures scanInterval == old(scanInterval) && stopTimeout == old(stopTimeout)
      ensures video != null ==> video.listeners == old(video.listeners)
      ensures video == null || !Truthy(currentDeviceId) ==>
        && r == Pass && unchanged(camera) && videoState == old(videoState) && streamRef == old(streamRef)
        && (video != null ==> unchanged(video))
      ensures video != null && Truthy(currentDeviceId) && old(videoState) == paused ==>
        && (r == Pass <==> accepted) && videoState == (if accepted then playing else paused)
        && (accepted ==> !video.paused) && (!accepted ==> r == Fail(PlaybackError) && unchanged(video))
        && video.srcObject == old(video.srcObject) && streamRef == old(streamRef) && unchanged(camera)
      ensures video != null && Truthy(currentDeviceId) && old(videoState) != paused ==>
        && camera.requests == old(camera.requests) + [DeviceConstraints(currentDeviceId.value)]
        && camera.stopped == old(camera.stopped)
        && (reply.None? ==>
              && r == Fail(Session.AcquisitionError) && videoState == old(videoState)
              && streamRef == old(streamRef) && video.srcObject == old(video.srcObject))
        && (reply.Some? ==>
              && r == (if accepted then Pass else Fail(PlaybackError))
              && videoState == (if accepted then playing else old(videoState)) && video.paused == !accepted
              && video.srcObject == streamRef && streamRef.Some?
              && camera.Live(old(camera.next))
              && forall id :: id in TrackIds(streamRef) <==> old(camera.next) <= id < camera.next)
      ensures forall id :: id in TrackIds(streamRef) ==> id in old(TrackIds(streamRef)) || old(camera.next) <= id
      ensures old(videoState) != playing && old(Owned()) && (r != Fail(PlaybackError) || old(videoState) == paused) ==> Owned()
    {
      if video == null || !Truthy(currentDeviceId) {
        return Pass;
      }
      if videoState != paused {
        ghost var n0 := camera.next;
        label BeforeAcquire:
        var s := camera.GetUserMedia(DeviceConstraints(currentDeviceId.value), reply);
        if s.None? {
          forall id: nat
            ensures camera.Live(id) == old@BeforeAcquire(camera.Live(id))
          {
          }
          return Fail(Session.AcquisitionError);
        }
        streamRef := s;
        video.SetSrcObject(s);
        r := video.PlayMedia(accepted);
        if r.Fail? {
          return;
        }
        if old(videoState) != playing && old(Owned()) {
          forall id: nat | camera.Live(id)
            ensures id in TrackIds(streamRef)
          {
            if id < n0 {
              assert old@BeforeAcquire(camera.Live(id));
            }
          }
        }
      } else {
        r := video.PlayMedia(accepted);
        if r.Fail? {
          return;
        }
      }
      videoState := playing;
      r := Pass;
    }

    /** `pauseVideo`: only from playing, and then the state becomes paused with the stream kept. */
    method PauseVideo()
      requires Valid()
      modifies this, video
      ensures Valid() && streamRef == old(streamRef) && currentDeviceId == old(currentDeviceId)
      ensures scanInterval == old(scanInterval) && stopTimeout == old(stopTimeout) && devices == old(devices)
      ensures video == null || old(videoState) != playing ==> videoState == old(videoState) && (video != null ==> unchanged(video))
      ensures video != null && old(videoState) == playing ==>
        && videoState == paused && video.paused
        && video.srcObject == old(video.srcObject) && video.listeners == old(video.listeners)
      ensures old(Owned()) ==> Owned()
    {
      if video == null {
        return;
      }
      if videoState != playing {
        return;
      }
      video.PauseMedia();
      videoState := paused;
    }

    /**
     * `stopVideo`: unconditionally stops every track of `streamRef`, clears
     * the element and records stopped.  `streamRef` keeps the stopped
     * stream, so a repeated call stops nothing new.
     */
    method StopVideo()
      requires Valid()
      modifies this, video, camera
      ensures Valid() && videoState == stopped && streamRef == old(streamRef)
      ensures devices == old(devices) && currentDeviceId == old(currentDeviceId)
      ensures scanInterval == old(scanInterval) && stopTimeout == old(stopTimeout)
      ensures camera.stopped == old(camera.stopped) + TrackIds(streamRef)
      ensures camera.next == old(camera.next) && camera.requests == old(camera.requests)
      ensures video != null ==> video.srcObject == None && video.listeners == old(video.listeners)
      ensures TrackIds(streamRef) <= old(camera.stopped) ==> camera.stopped == old(camera.stopped)
      ensures old(Owned()) ==> Owned() && forall id: nat :: !camera.Live(id)
    {
      if streamRef.Some? {
        var tracks := streamRef.value.tracks;
        forall i | 0 <= i < |tracks|
          ensures tracks[i].id < camera.next
        {
          assert tracks[i].id in TrackIds(streamRef);
        }
        camera.StopTracks(tracks);
      }
      if video != null {
        video.SetSrcObject(None);
      }
      videoState := stopped;
    }

    /** `toggleVideo`: plays when paused, otherwise pauses, so a stopped component stays stopped. */
    method ToggleVideo(reply: Option<seq<TrackSpec>>, accepted: bool) returns (r: Outcome<string>)
      requires Valid() && (reply.Some? ==> |reply.value| > 0)
      modifies this, video, camera
      ensures Valid()
      ensures old(videoState) == stopped ==>
        && r == Pass && videoState == stopped && unchanged(camera) && streamRef == old(streamRef)
        && (video != null ==> unchanged(video))
      ensures old(videoState) == playing && video != null ==> r == Pass && videoState == paused
      ensures old(videoState) == paused && video != null && Truthy(currentDeviceId) ==>
        (r == Pass <==> accepted) && videoState == (if accepted then playing else paused)
      ensures old(Owned()) ==> Owned()
    {
      if videoState == paused {
        r := PlayVideo(reply, accepted);
      } else {
        PauseVideo();
        r := Pass;
      }
    }

    /**
     * The effect on `currentDevideId`: the previous effect's cleanup
     * `stopVideo` runs, then `playVideo` for the new id.  Tracks outside
     * `streamRef` are not touched.
     */
    method DeviceEffect(reply: Option<seq<TrackSpec>>, accepted: bool) returns (r: Outcome<string>)
      requires Valid() && (reply.Some? ==> |reply.value| > 0)
      modifies this, video, camera
      ensures Valid() && devices == old(devices) && currentDeviceId == old(currentDeviceId)
      ensures camera.stopped == old(camera.stopped) + old(TrackIds(streamRef))
      ensures forall id: nat :: old(camera.Live(id)) && id !in old(TrackIds(streamRef)) ==> camera.Live(id)
      ensures video != null && Truthy(currentDeviceId) ==>
        && camera.requests == old(camera.requests) + [DeviceConstraints(currentDeviceId.value)]
        && (r == Pass <==> reply.Some? && accepted)
        && (reply.Some? ==> video.srcObject == streamRef && streamRef.Some?)
        && (reply.Some? && accepted ==> videoState == playing)
        && (reply.None? || !accepted ==> videoState == stopped)
      ensures !(video != null && Truthy(currentDeviceId)) ==> r == Pass && videoState == stopped
      ensures video != null ==> video.srcObject == None || video.srcObject == streamRef
      ensures forall id :: id in TrackIds(streamRef) ==> id in old(TrackIds(streamRef)) || old(camera.next) <= id
      ensures old(Owned()) && r != Fail(PlaybackError) ==> Owned()
    {
      StopVideo();
      r := PlayVideo(reply, accepted);
    }

    /** The radio group selects a device: the device effect runs when the id changes. */
    method SelectDevice(id: string, reply: Option<seq<TrackSpec>>, accepted: bool) returns (r: Outcome<string>)
      requires Valid() && (reply.Some? ==> |reply.value| > 0)
      modifies this, video, camera
      ensures Valid() && currentDeviceId == Some(id)
      ensures old(currentDeviceId) == Some(id) ==>
        r == Pass && unchanged(camera) && videoState == old(videoState) && streamRef == old(streamRef)
      ensures old(currentDeviceId) != Some(id) && video != null && id != "" ==>
        && camera.requests == old(camera.requests) + [DeviceConstraints(id)]
        && camera.stopped == old(camera.stopped) + old(TrackIds(streamRef))
        && (r == Pass <==> reply.Some? && accepted)
        && (r == Pass ==> videoState == playing)
      ensures old(Owned()) && r != Fail(PlaybackError) ==> Owned()
    {
      if currentDeviceId == Some(id) {
        return Pass;
      }
      currentDeviceId := Some(id);
      r := DeviceEffect(reply, accepted);
    }

    /** The effect on `isPlaying`: the timers are armed while playing and cleared otherwise. */
    method TimerEffect()
      requires Valid()
      modifies this, window
      ensures Valid() && videoState == old(videoState) && streamRef == old(streamRef)
      ensures old(scanInterval) !in window.pending && old(stopTimeout) !in window.pending
      ensures scanInterval in window.pending <==> videoState == playing
      ensures stopTimeout in window.pending <==> videoState == playing
      ensures videoState == playing ==>
        && window.pending == (old(window.pending) - {old(scanInterval), old(stopTimeout)})[scanInterval := Timer(true, interval, ScanFrame)][stopTimeout := Timer(false, timeout, StopSession)]
      ensures videoState != playing ==> window.pending == old(window.pending) - {old(scanInterval), old(stopTimeout)}
      ensures old(Owned()) ==> Owned()
    {
      window.Clear(scanInterval);
      window.Clear(stopTimeout);
      if videoState == playing {
        scanInterval := window.Set(Timer(true, interval, ScanFrame));
        stopTimeout := window.Set(Timer(false, timeout, StopSession));
      }
    }

    /** The stop timeout fires: it leaves the table and `stopVideo` runs. */
    method OnStopTimeout()
      requires Valid() && stopTimeout in window.pending
      modifies this, video, camera, window
      ensures Valid() && videoState == stopped
      ensures window.pending == old(window.pending) - {old(stopTimeout)}
      ensures camera.stopped == old(camera.stopped) + TrackIds(streamRef)
      ensures old(Owned()) ==> Owned() && forall id: nat :: !camera.Live(id)
    {
      window.Clear(stopTimeout);
      StopVideo();
    }

    /**
     * The startup effect as written: the devices are stored, a probe stream
     * is acquired and the initial device id is read from its first track's
     * settings; the probe's tracks are never stopped.  `probe` is what
     * `getUserMedia` answers for the probe.
     */
    method StartupAsWritten(listed: seq<Device>, probe: Option<seq<TrackSpec>>) returns (r: Outcome<string>)
      requires Valid() && (probe.Some? ==> |probe.value| > 0)
      modifies this, camera
      ensures Valid() && devices == listed && videoState == old(videoState) && streamRef == old(streamRef)
      ensures camera.requests == old(camera.requests) + [ProbeConstraints(constraints)]
      ensures camera.stopped == old(camera.stopped)
      ensures probe.None? ==> r == Fail(Session.AcquisitionError) && currentDeviceId == old(currentDeviceId)
      ensures probe.Some? ==>
        && r == Pass && currentDeviceId == probe.value[0].settings.deviceId
        && camera.next > old(camera.next)
        && forall id :: old(camera.next) <= id < camera.next ==> camera.Live(id) && id !in TrackIds(streamRef)
      ensures probe.Some? ==> !Owned()
    {
      devices := listed;
      var s := camera.GetUserMedia(ProbeConstraints(constraints), probe);
      if s.None? {
        return Fail(Session.AcquisitionError);
      }
      currentDeviceId := camera.settings[s.value.tracks[0].id].deviceId;
      r := Pass;
      assert camera.Live(old(camera.next));
    }

    /** The startup effect with the probe's tracks stopped once the device id is read. */
    method Startup(listed: seq<Device>, probe: Option<seq<TrackSpec>>) returns (r: Outcome<string>)
      requires Valid() && (probe.Some? ==> |probe.value| > 0)
      modifies this, camera
      ensures Valid() && devices == listed && videoState == old(videoState) && streamRef == old(streamRef)
      ensures camera.requests == old(camera.requests) + [ProbeConstraints(constraints)]
      ensures probe.None? ==> r == Fail(Session.AcquisitionError) && currentDeviceId == old(currentDeviceId)
      ensures probe.Some? ==> r == Pass && currentDeviceId == probe.value[0].settings.deviceId
      ensures forall id :: old(camera.next) <= id < camera.next ==> !camera.Live(id)
      ensures old(Owned()) ==> Owned()
    {
      devices := listed;
      var s := camera.GetUserMedia(ProbeConstraints(constraints), probe);
      if s.None? {
        forall id: nat ensures camera.Live(id) == old(camera.Live(id)) {}
        return Fail(Session.AcquisitionError);
      }
      currentDeviceId := camera.settings[s.value.tracks[0].id].deviceId;
      ghost var n0 := old(camera.next);
      label BeforeStop:
      camera.StopTracks(s.value.tracks);
      forall id: nat | camera.Live(id)
        ensures id < n0 && old(camera.Live(id))
      {
        assert old@BeforeStop(camera.Live(id));
      }
      r := Pass;
    }
  }

  /**
   * Startup as written followed by the device effect it triggers: once the
   * bound stream is acquired, a probe track is still live outside it, so
   * two streams hold the camera.
   */
  method ProbeLeaks(p: Player, listed: seq<Device>, probe: seq<TrackSpec>, reply: Option<seq<TrackSpec>>, accepted: bool) returns (leaked: nat)
    requires p.Valid() && p.Owned() && |probe| > 0 && (reply.Some? ==> |reply.value| > 0)
    modifies p, p.video, p.camera
    ensures p.Valid()
    ensures p.camera.Live(leaked) && leaked !in TrackIds(p.streamRef)
    ensures p.video != null ==> leaked !in TrackIds(p.video.srcObject)
  {
    leaked := p.camera.next;
    var _ := p.StartupAsWritten(listed, Some(probe));
    assert p.camera.Live(leaked) && leaked !in TrackIds(p.streamRef);
    label AfterStartup:
    var _ := p.DeviceEffect(reply, accepted);
    assert old@AfterStartup(p.camera.Live(leaked));
  }
}
