/**
 * The browser side of a scanner session: capture devices, the tracks the
 * camera hands out (with their `stopped` flag and current settings), and
 * the HTMLVideoElement a stream is bound to.  Device enumeration, stream
 * acquisition and constraint application are hardware; what the hardware
 * answers is passed in as a parameter.
 */
module Media {
  import opened Wrappers
  import opened Events

  /** The error a rejected `video.play()` raises (`NotAllowedError` or `AbortError`). */
  const PlaybackError := "PlaybackError"

  /** The error a rejected `track.applyConstraints` raises. */
  const ConstraintError := "OverconstrainedError"

  /** A capture device as the enumerator lists it (`MediaDeviceInfo`). */
  datatype Device = Device(deviceId: string, deviceLabel: string)

  /** The zoom capability: `DoubleRange & {step?}`. */
  datatype ZoomRange = ZoomRange(min: real, max: real, step: Option<real>)

  /** `MediaTrackAdvancedCapabilities`, restricted to the fields the core reads. */
  datatype Capabilities = Capabilities(deviceId: Option<string>, torch: Option<bool>, zoom: Option<ZoomRange>)

  /** `MediaTrackAdvancedSettings`, restricted to the fields the core reads. */
  datatype Settings = Settings(deviceId: Option<string>, torch: Option<bool>, zoom: Option<real>)

  /** `MediaTrackConstraints`: a requested device id and/or facing mode. */
  datatype Constraints = Constraints(deviceId: Option<string>, facingMode: Option<string>)

  /** `{deviceId: id}` */
  function DeviceConstraints(id: string): (c: Constraints)
    ensures c.deviceId == Some(id) && c.facingMode.None?
  {
    Constraints(Some(id), None)
  }

  /** `{facingMode: mode}` */
  function FacingConstraints(mode: string): (c: Constraints)
    ensures c.facingMode == Some(mode) && c.deviceId.None?
  {
    Constraints(None, Some(mode))
  }

  /** An advanced constraint set the core applies: `{advanced:[{torch}]}` or `{advanced:[{zoom}]}`. */
  datatype Advanced = TorchSet(on: bool) | ZoomSet(level: real)

  /** What the hardware reports for one track it hands out. */
  datatype TrackSpec = TrackSpec(capabilities: Capabilities, constraints: Constraints, settings: Settings)

  /** A `MediaStreamTrack` handle; its `stopped` flag and settings live in the Camera. */
  datatype Track = Track(id: nat, capabilities: Capabilities, constraints: Constraints)

  /** A `MediaStream`: its tracks in `getTracks()` order. */
  datatype Stream = Stream(tracks: seq<Track>)

  /** JavaScript truthiness of an optional string (`undefined` and `""` are falsy). */
  predicate Truthy(s: Option<string>) { s.Some? && s.value != "" }

  /** The ids of a stream's tracks (none for `null`). */
  function TrackIds(s: Option<Stream>): set<nat>
  {
    match s
    case None => {}
    case Some(st) => set t | t in st.tracks :: t.id
  }

  /** `stream?.getTracks()?.[0] || null` */
  function FirstTrack(s: Option<Stream>): (r: Option<Track>)
    ensures r.Some? <==> s.Some? && |s.value.tracks| > 0
    ensures r.Some? ==> r.value == s.value.tracks[0] && r.value.id in TrackIds(s)
  {
    if s.Some? && |s.value.tracks| > 0 then Some(s.value.tracks[0]) else None
  }

  /** `m` extended with the settings of tracks `base`, `base + 1`, ... reported by `specs`. */
  function WithSettings(m: map<nat, Settings>, base: nat, specs: seq<TrackSpec>): (r: map<nat, Settings>)
    ensures forall id :: id in r <==> id in m || base <= id < base + |specs|
    ensures forall i :: 0 <= i < |specs| ==> r[base + i] == specs[i].settings
    ensures forall id :: id in m && !(base <= id < base + |specs|) ==> r[id] == m[id]
    decreases |specs|
  {
    if specs == [] then m else WithSettings(m[base := specs[0].settings], base + 1, specs[1..])
  }

  /** The two handlers the hooks register on the video element. */
  datatype Handler = SrcObjectChange | ResizeHandler

  /** One `addEventListener(type, handler)` registration. */
  datatype Listener = Listener(event: EventType, handler: Handler)

  /**
   * The camera hardware behind `navigator.mediaDevices`: every track it has
   * handed out has an id below `next`; `stopped` holds the tracks whose
   * `stop()` was called; `settings` is what `getSettings()` returns; and
   * `requests`/`applied` record the `getUserMedia` and `applyConstraints` calls.
   */
  class Camera {
    var next: nat
    var stopped: set<nat>
    var settings: map<nat, Settings>
    var requests: seq<Constraints>
    var applied: seq<(nat, Advanced)>

    ghost predicate Valid()
      reads this
    {
      && (forall id: nat :: id in settings <==> id < next)
      && (forall id :: id in stopped ==> id < next)
    }

    /** A track that has been handed out and not stopped. */
    predicate Live(id: nat)
      reads this
    {
      id < next && id !in stopped
    }

    constructor ()
      ensures Valid()
      ensures next == 0 && stopped == {} && settings == map[] && requests == [] && applied == []
    {
      next, stopped, settings, requests, applied := 0, {}, map[], [], [];
    }

    /**
     * `getUserMedia({video: c})`: `reply` is what the hardware answers
     * (`None` when it rejects).  A granted stream consists of fresh, live tracks.
     */
    method GetUserMedia(c: Constraints, reply: Option<seq<TrackSpec>>) returns (r: Option<Stream>)
      requires Valid()
      modifies this
      ensures Valid()
      ensures requests == old(requests) + [c]
      ensures stopped == old(stopped) && applied == old(applied)
      ensures r.Some? <==> reply.Some?
      ensures reply.None? ==> next == old(next) && settings == old(settings)
      ensures reply.Some? ==> next == old(next) + |reply.value| && |r.value.tracks| == |reply.value|
      ensures reply.Some? ==> forall i :: 0 <= i < |reply.value| ==>
        r.value.tracks[i] == Track(old(next) + i, reply.value[i].capabilities, reply.value[i].constraints)
        && settings[old(next) + i] == reply.value[i].settings
      ensures reply.Some? ==> forall id :: id in TrackIds(r) <==> old(next) <= id < next
      ensures forall id :: id in old(settings) ==> id in settings && settings[id] == old(settings)[id]
    {
      requests := requests + [c];
      if reply.None? {
        return None;
      }
      var specs := reply.value;
      var base := next;
      var tracks := seq(|specs|, i requires 0 <= i < |specs| => Track(base + i, specs[i].capabilities, specs[i].constraints));
      settings := WithSettings(settings, base, specs);
      next := base + |specs|;
      r := Some(Stream(tracks));
      forall id | old(next) <= id < next
        ensures id in TrackIds(r)
      {
        assert tracks[id - base].id == id;
      }
    }

    /** `tracks.forEach(track => track.stop())` */
    method StopTracks(tracks: seq<Track>)
      requires Valid()
      requires forall i :: 0 <= i < |tracks| ==> tracks[i].id < next
      modifies this
      ensures Valid()
      ensures stopped == old(stopped) + TrackIds(Some(Stream(tracks)))
      ensures next == old(next) && settings == old(settings) && requests == old(requests) && applied == old(applied)
    {
      var i := 0;
      while i < |tracks|
        invariant 0 <= i <= |tracks|
        invariant Valid()
        invariant stopped == old(stopped) + TrackIds(Some(Stream(tracks[..i])))
        invariant next == old(next) && settings == old(settings) && requests == old(requests) && applied == old(applied)
      {
        assert tracks[..i + 1] == tracks[..i] + [tracks[i]];
        stopped := stopped + {tracks[i].id};
        i := i + 1;
      }
      assert tracks[..i] == tracks;
    }

    /**
     * `track.applyConstraints(advanced)` followed by `track.getSettings()`:
     * `readback` is the hardware's post-application settings (`None` when
     * the promise rejects, in which case nothing changes).
     */
    method ApplyConstraints(id: nat, a: Advanced, readback: Option<Settings>) returns (r: Option<Settings>)
      requires Valid() && id < next
      modifies this
      ensures Valid()
      ensures applied == old(applied) + [(id, a)]
      ensures r == readback
      ensures readback.None? ==> settings == old(settings)
      ensures readback.Some? ==> settings == old(settings)[id := readback.value]
      ensures next == old(next) && stopped == old(stopped) && requests == old(requests)
    {
      applied := applied + [(id, a)];
      if readback.Some? {
        settings := settings[id := readback.value];
      }
      r := readback;
    }
  }

  /** An HTMLVideoElement: the bound `srcObject`, the `paused` flag and the registered listeners. */
  class VideoElement {
    var srcObject: Option<Stream>
    var paused: bool
    var listeners: set<Listener>

    constructor ()
      ensures srcObject == None && paused && listeners == {}
    {
      srcObject, paused, listeners := None, true, {};
    }

    /**
     * `video.srcObject = s`.  Assigning a source runs the media element load
     * algorithm of the HTML Living Standard, which leaves the element paused.
     */
    method SetSrcObject(s: Option<Stream>)
      modifies this
      ensures srcObject == s && paused && listeners == old(listeners)
    {
      srcObject, paused := s, true;
    }

    /**
     * `await video.play()`: `accepted` is whether the element lets playback
     * start.  A rejected play leaves the element as it was and rejects with
     * `PlaybackError`.
     */
    method PlayMedia(accepted: bool) returns (r: Outcome<string>)
      modifies this
      ensures r == Pass <==> accepted
      ensures accepted ==> !paused && srcObject == old(srcObject) && listeners == old(listeners)
      ensures !accepted ==> r == Fail(PlaybackError) && unchanged(this)
    {
      if !accepted {
        return Fail(PlaybackError);
      }
      paused := false;
      r := Pass;
    }

    /** `video.pause()` */
    method PauseMedia()
      modifies this
      ensures paused && srcObject == old(srcObject) && listeners == old(listeners)
    {
      paused := true;
    }

    /** `addEventListener`: registering the same handler twice for one type has no effect. */
    method AddListener(l: Listener)
      modifies this
      ensures listeners == old(listeners) + {l} && srcObject == old(srcObject) && paused == old(paused)
    {
      listeners := listeners + {l};
    }

    /** `removeEventListener` */
    method RemoveListener(l: Listener)
      modifies this
      ensures listeners == old(listeners) - {l} && srcObject == old(srcObject) && paused == old(paused)
    {
      listeners := listeners - {l};
    }
  }

  /**
   * The session invariant: the live tracks are exactly the tracks of the one
   * bound stream, which has at least one track.  So at most one stream holds
   * the camera, and every track of a replaced or stopped stream is stopped.
   */
  ghost predicate Owns(video: VideoElement, camera: Camera)
    reads video, camera
  {
    && camera.Valid()
    && (forall id: nat :: camera.Live(id) <==> id in TrackIds(video.srcObject))
    && (video.srcObject.Some? ==> |video.srcObject.value.tracks| > 0)
  }

  /** `srcObject?.getTracks()?.[0].getSettings() || null`: the current settings of the bound stream's first track. */
  function BoundSettings(video: VideoElement, camera: Camera): (r: Option<Settings>)
    requires Owns(video, camera)
    reads video, camera
    ensures r.Some? <==> video.srcObject.Some?
    ensures r.Some? ==>
      var t := video.srcObject.value.tracks[0];
      camera.Live(t.id) && r.value == camera.settings[t.id]
  {
    if video.srcObject.None? then None
    else
      var t := video.srcObject.value.tracks[0];
      assert t.id in TrackIds(video.srcObject);
      Some(camera.settings[t.id])
  }
}
