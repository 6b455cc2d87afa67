/**
 * The capture session operations on a video element: `play`, `pause` and
 * `stop`.  src/hooks/useScanner.tsx and src/components/Scanner.tsx carry the
 * same code for them (the element may be missing: `videoRef.current` is
 * `null` before the element mounts, and then every operation returns).
 */
module Session {
  import opened Wrappers
  import opened Media

  /** The error a rejected `getUserMedia` raises out of `play`. */
  const AcquisitionError := "AcquisitionError"

  /**
   * `play(constraints?)`.  With constraints, a bound stream is stopped first
   * and a freshly acquired stream is bound; without, the bound stream is kept
   * and only playback resumes.  A rejected acquisition ends the call before
   * `video.play()`, with nothing bound.  `accepted` is the element's answer
   * to `video.play()`: a rejected play leaves the stream bound but paused,
   * and `play` rejects with it.
   */
  method Play(video: VideoElement?, camera: Camera, c: Option<Constraints>, reply: Option<seq<TrackSpec>>, accepted: bool)
    returns (r: Outcome<string>)
    requires camera.Valid()
    requires video != null ==> Owns(video, camera)
    requires reply.Some? ==> |reply.value| > 0
    modifies video, camera
    ensures camera.Valid() && camera.next >= old(camera.next)
    ensures video != null ==> Owns(video, camera) && video.listeners == old(video.listeners)
    ensures video == null ==> r == Pass && unchanged(camera)
    ensures video != null && c.None? ==>
      && video.srcObject == old(video.srcObject) && unchanged(camera)
      && (accepted ==> r == Pass && !video.paused)
      && (!accepted ==> r == Fail(PlaybackError) && unchanged(video))
    ensures video != null && c.Some? ==>
      && camera.requests == old(camera.requests) + [c.value]
      && camera.stopped == old(camera.stopped) + TrackIds(old(video.srcObject))
      && camera.applied == old(camera.applied)
    ensures video != null && c.Some? && reply.None? ==>
      && r == Fail(AcquisitionError) && video.srcObject == None
      && video.paused == (old(video.srcObject).Some? || old(video.paused))
    ensures video != null && c.Some? && reply.Some? ==>
      && r == (if accepted then Pass else Fail(PlaybackError))
      && video.paused == !accepted && camera.next == old(camera.next) + |reply.value|
      && video.srcObject.Some? && |video.srcObject.value.tracks| == |reply.value|
      && (forall i :: 0 <= i < |reply.value| ==>
            video.srcObject.value.tracks[i]
            == Track(old(camera.next) + i, reply.value[i].capabilities, reply.value[i].constraints))
      && (forall id :: id in TrackIds(video.srcObject) <==> old(camera.next) <= id < camera.next)
  {
    if video == null {
      return Pass;
    }
    if c.Some? {
      if video.srcObject.Some? {
        Stop(video, camera);
      }
      assert forall id: nat :: !camera.Live(id);
      label BeforeAcquire:
      ghost var n0 := camera.next;
      var s := camera.GetUserMedia(c.value, reply);
      if s.None? {
        return Fail(AcquisitionError);
      }
      video.SetSrcObject(s);
      forall id: nat
        ensures camera.Live(id) <==> id in TrackIds(video.srcObject)
      {
        if id < n0 {
          assert !old@BeforeAcquire(camera.Live(id));
        }
      }
    }
    r := video.PlayMedia(accepted);
  }

  /** `pause()`: nothing when already paused, otherwise `video.pause()`; the stream stays bound. */
  method Pause(video: VideoElement?)
    modifies video
    ensures video != null ==> video.paused && video.srcObject == old(video.srcObject) && video.listeners == old(video.listeners)
    ensures video != null && old(video.paused) ==> unchanged(video)
  {
    if video == null {
      return;
    }
    if video.paused {
      return;
    }
    video.PauseMedia();
  }

  /**
   * `stop()`: every track of the bound stream is stopped and the binding is
   * cleared.  A second `stop` finds nothing bound and changes nothing.
   */
  method Stop(video: VideoElement?, camera: Camera)
    requires camera.Valid()
    requires video != null && video.srcObject.Some? ==> forall id :: id in TrackIds(video.srcObject) ==> id < camera.next
    modifies video, camera
    ensures camera.Valid()
    ensures video == null ==> unchanged(camera)
    ensures video != null ==>
      && video.srcObject == None && video.paused && video.listeners == old(video.listeners)
      && camera.stopped == old(camera.stopped) + TrackIds(old(video.srcObject))
      && camera.next == old(camera.next) && camera.settings == old(camera.settings)
      && camera.requests == old(camera.requests) && camera.applied == old(camera.applied)
    ensures video != null && old(video.srcObject) == None ==> unchanged(camera)
    ensures video != null && old(Owns(video, camera)) ==> Owns(video, camera)
  {
    if video == null {
      return;
    }
    if video.srcObject.Some? {
      var tracks := video.srcObject.value.tracks;
      forall i | 0 <= i < |tracks|
        ensures tracks[i].id < camera.next
      {
        assert tracks[i].id in TrackIds(video.srcObject);
      }
      camera.StopTracks(tracks);
    }
    video.SetSrcObject(None);
  }
}
