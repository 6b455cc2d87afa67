# reqr scanner core in Dafny

A model of the scanner session controller of reqr (a React QR and barcode
reader), and proofs about it. The controller binds a camera stream to an
HTMLVideoElement. It maps the element's lifecycle events to a
`ScannerState` (LOADING, PLAYING, PAUSED, STOPPED). It exposes `play`,
`pause`, `stop`, torch and zoom. It also arms a scan interval and a stop
timeout while the session plays.

The model covers:
- the three controller revisions (`useScanner.tsx`, `hooks/index.ts`, and
  the in-component versions in `components/Scanner.tsx` and
  `lib/Scanner.tsx`);
- the one-slot timer hooks;
- the UI decision rules of the buttons and the zoom slider;
- the frame geometry;
- the de-duplicating result list of the demo app.

How the model is built:
- **Modules.**
  - `Media` models the browser. A `Camera` class holds every track the
    hardware handed out, with its stopped flag and current settings. A
    `VideoElement` class holds the bound `srcObject`, `paused` and the
    listener set.
  - `Session` holds `play`/`pause`/`stop`, which `useScanner.tsx` and
    `components/Scanner.tsx` write identically.
  - Each controller revision is a class over these objects.
  - The timer hooks are classes over a `TimerTable` that stands for
    `window.setTimeout`/`setInterval`.
  - The pure rules are functions.
- **Hardware answers are parameters.** What the hardware answers
  (`getUserMedia`'s tracks or a rejection, whether `video.play()` resolves,
  the settings read back after `applyConstraints`, the device list, a
  decode outcome, whether a saved timer callback throws) is a parameter of
  the operation that receives it.
- **Events are steps.** The DOM decides when an event fires, so dispatching
  one is a method the environment calls.

The central invariant is `Media.Owns`: either no stream is bound and no
track is live, or one stream is bound and the live tracks are exactly its
tracks. So at most one stream holds the camera, and every track of a
replaced or stopped stream is stopped. The component in `lib/Scanner.tsx`
keeps its own variant, `LibScanner.Player.Owned`.

In these places the model follows what the code does rather than what its
names suggest:
- `pause` in `useScanner.tsx` tests the element's `paused` flag, not the
  session state.
- The session state changes only through lifecycle events; `stop` changes
  it only by way of the `emptied` event.
- A rejected acquisition leaves nothing bound. The old stream has already
  been stopped, and the element is left as it was after that stop.
- `useScanner.tsx`'s `setTorch` requires `capabilities.torch` to be truthy.
  `TorchButton.tsx` counts any defined value, so `torch: false` enables the
  button, but the click then does nothing.

## Model

| member | source | states |
|---|---|---|
| Events.EventState | src/hooks/useScanner.tsx:6-12 | the table is defined exactly on the five lifecycle events; `playing` and `loadedmetadata` give PLAYING, `play` gives LOADING, `pause` gives PAUSED, `emptied` gives STOPPED (each as an if-and-only-if) |
| Events.EveryStateIsAnnounced | src/types/index.ts:1 | every `ScannerState` is announced by some registered lifecycle event |
| Media.FirstTrack | src/hooks/useScanner.tsx:25 | the track is present iff the stream has a track; it is then the first track, and it belongs to the stream |
| Media.Camera.GetUserMedia | src/hooks/useScanner.tsx:37 | the request is logged; a granted stream consists of fresh tracks numbered from the old allocator value, each live, carrying the reported capabilities, constraints and settings; a rejection allocates nothing; no existing track changes |
| Media.Camera.StopTracks | src/hooks/useScanner.tsx:53 | exactly the given tracks join the stopped set (loop invariant over the `forEach`); nothing else changes |
| Media.Camera.ApplyConstraints | src/hooks/useScanner.tsx:68-71 | the request is logged; the track's settings become the hardware's read-back value, or stay as they were when the promise rejects |
| Media.VideoElement.SetSrcObject | src/hooks/useScanner.tsx:55 | `srcObject` becomes the given stream and the element is paused, as the media element load algorithm of the HTML Living Standard demands; listeners are kept |
| Media.VideoElement.PlayMedia | src/hooks/useScanner.tsx:39 | `video.play()` resolves iff the element accepts playback; then the element plays and keeps its stream and listeners; a rejection fails with the playback error and leaves the element as it was |
| Media.VideoElement.PauseMedia | src/hooks/useScanner.tsx:46 | the element is paused and keeps its stream and listeners |
| Media.VideoElement.AddListener | src/hooks/useScanner.tsx:101-106 | the listener set gains the registration; registering twice has no effect |
| Media.VideoElement.RemoveListener | src/hooks/useScanner.tsx:109-114 | the registration leaves the listener set |
| Media.BoundSettings | src/hooks/useScanner.tsx:90 | settings are present iff a stream is bound, and are then the current settings of its first track, which is live |
| Media.DeviceConstraints | src/components/Scanner.tsx:106 | `{deviceId: id}` names the device and no facing mode |
| Media.FacingConstraints | src/hooks/useScanner.tsx:81 | `{facingMode: mode}` names the facing mode and no device |
| Session.Play | src/hooks/useScanner.tsx:32-40 | no element: nothing changes; without constraints the bound stream is kept and playback resumes, or the call fails with the playback error and nothing changes; with constraints every track of the old stream is stopped and the request is logged; then either nothing is bound and the call fails with the acquisition error, or a stream of fresh tracks is bound, and it plays when `video.play()` resolves or stays paused while the call fails with the playback error; `Owns` is preserved on every path and the track allocator never goes back |
| Session.Pause | src/hooks/useScanner.tsx:42-47 | no element or already paused: nothing changes; otherwise the element is paused and keeps its stream |
| Session.Stop | src/hooks/useScanner.tsx:49-56 | every track of the bound stream is stopped and nothing stays bound; with nothing bound the camera is untouched, so a second `stop` changes nothing; `Owns` is preserved |
| UseScannerHook.StartupConstraints | src/hooks/useScanner.tsx:81 | the startup request names a non-empty facing mode: the option when it is truthy, `environment` otherwise |
| UseScannerHook.RegisteredCoversStateEvents | src/hooks/useScanner.tsx:101-106 | the stream handler is registered exactly for the events of the `eventState` table, and the resize handler exactly for `resize` |
| UseScannerHook.Controller.Track | src/hooks/useScanner.tsx:25 | the first track of the snapshot stream, present iff that stream has a track |
| UseScannerHook.Controller.Capabilities | src/hooks/useScanner.tsx:26 | present iff `track` is, and then the track's capabilities |
| UseScannerHook.Controller.Constraints | src/hooks/useScanner.tsx:27 | present iff `track` is, and then the track's constraints |
| UseScannerHook.Controller.SyncedTrackIsLive | src/hooks/useScanner.tsx:88-90 | once the snapshot has been re-read from the element, its track is a live camera track, and with no track no camera track is live |
| UseScannerHook.Controller.Play | src/hooks/useScanner.tsx:32-40 | as `Session.Play`: the call passes iff the acquisition (when requested) and `video.play()` both succeed, and the controller's invariant is kept |
| UseScannerHook.Controller.Pause | src/hooks/useScanner.tsx:42-47 | as `Session.Pause` |
| UseScannerHook.Controller.Stop | src/hooks/useScanner.tsx:49-56 | the bound stream's tracks are stopped, nothing is bound and no camera track is live |
| UseScannerHook.Controller.HandleSrcObjectChange | src/hooks/useScanner.tsx:86-92 | `stream` and `settings` are re-read from the element and `state` becomes the table's value for the event type |
| UseScannerHook.Controller.HandleResize | src/hooks/useScanner.tsx:94-99 | `sizes` becomes the measured video and client sizes; nothing else changes |
| UseScannerHook.Controller.Dispatch | src/hooks/useScanner.tsx:101-106 | an event reaches the handlers registered for its type; an unhandled type leaves the snapshot alone |
| UseScannerHook.Controller.Mount | src/hooks/useScanner.tsx:73-75 | with an element, the six registrations are added; without one, nothing happens |
| UseScannerHook.Controller.Unmount | src/hooks/useScanner.tsx:108-115 | the cleanup removes all six registrations |
| UseScannerHook.Controller.Startup | src/hooks/useScanner.tsx:77-84 | no element: nothing happens; the listed devices are stored even when empty; an empty list raises the no-devices error before any request; otherwise the facing-mode request is played, and the effect passes iff the stream is granted and plays |
| UseScannerHook.Controller.SetTorch | src/hooks/useScanner.tsx:58-62 | without a track, or with a falsy torch capability, the call resolves and nothing changes; otherwise the torch request is applied to the track, and either `settings` becomes the read-back value (never the requested one) or the call rejects with the constraint error and `settings` is kept |
| UseScannerHook.Controller.SetZoom | src/hooks/useScanner.tsx:63-71 | the same, gated on a zoom capability: resolves unchanged without one; otherwise applies the zoom and takes the read-back settings, or rejects with the constraint error |
| ScannerHooks.VideoInputDevices.Load | src/hooks/index.ts:9-15 | the list is stored even when empty, and the call raises exactly when it is empty |
| ScannerHooks.RegisteredIsStateEvents | src/hooks/index.ts:52-56 | exactly five registrations, one per key of the `eventState` table |
| ScannerHooks.CapabilityDeviceId | src/hooks/index.ts:38 | the capability's device id when it is truthy, null otherwise |
| ScannerHooks.ScannerHook.Track | src/hooks/index.ts:34 | the first track of the snapshot stream, or none |
| ScannerHooks.ScannerHook.Capabilities | src/hooks/index.ts:35 | null exactly when `track` is |
| ScannerHooks.ScannerHook.Constraints | src/hooks/index.ts:36 | null exactly when `track` is |
| ScannerHooks.ScannerHook.DeviceId | src/hooks/index.ts:38 | a non-empty device id taken from the track's capabilities, present whenever that id is truthy |
| ScannerHooks.ScannerHook.HandleSrcObjectChange | src/hooks/index.ts:44-51 | `stream` and `settings` are always re-read from the element; `state` changes only for a type of the table |
| ScannerHooks.ScannerHook.Dispatch | src/hooks/index.ts:52-56 | a registered event runs the handler; an unregistered type leaves the snapshot alone |
| ScannerHooks.ScannerHook.Mount | src/hooks/index.ts:42-56 | with an element, the five registrations are added |
| ScannerHooks.ScannerHook.UnmountAsWritten | src/hooks/index.ts:58-64 | the cleanup as written: four registrations are added again and only `emptied` is removed |
| ScannerHooks.ScannerHook.Unmount | src/hooks/index.ts:58-64 | the corrected cleanup removes all five registrations |
| ScannerHooks.CleanupLeavesListeners | src/hooks/index.ts:52-64 | mount then cleanup as written on a bare element leaves four registrations, `play` among them |
| ScannerHooks.CleanupRemovesListeners | src/hooks/index.ts:52-64 | mount then the corrected cleanup leaves none |
| Timers.TimerTable.Set | src/hooks/useTimeout.ts:15 | a fresh id, never 0 and never in use, now names the timer; the ids of other timers are untouched |
| Timers.TimerTable.Clear | src/hooks/useTimeout.ts:26 | the timer leaves the table; an unknown id is ignored |
| UseTimeout.Timeout.Start | src/hooks/useTimeout.ts:13-22 | on an empty slot, a one-shot timer for the saved callback is armed and its id stored; while the slot holds an id (armed, or spent after a throwing callback), the call fails with "Timeout already started" and changes nothing |
| UseTimeout.Timeout.Clear | src/hooks/useTimeout.ts:24-29 | the armed timer is cancelled and the slot emptied; on an empty slot nothing changes |
| UseTimeout.Timeout.Reset | src/hooks/useTimeout.ts:31-34 | never fails; the old timer is cancelled and the slot holds a fresh timer |
| UseTimeout.Timeout.SetCallback | src/hooks/useTimeout.ts:36-38 | the saved callback becomes the latest one; the slot is kept |
| UseTimeout.Timeout.Fire | src/hooks/useTimeout.ts:15-18 | the timer leaves the table and the latest saved callback runs once; the slot is emptied only when the callback returns, and a throwing callback leaves it naming the spent timer |
| UseTimeout.Timeout.ThrowingCallbackBlocksStart | src/hooks/useTimeout.ts:13-20 | after a callback throws, `start` fails with "Timeout already started" although no timer of the hook is pending |
| UseTimeout.Timeout.Mount | src/hooks/useTimeout.ts:36-43 | mounting saves the callback and starts successfully |
| UseTimeout.Timeout.Unmount | src/hooks/useTimeout.ts:40-43 | unmounting clears the slot and cancels its timer |
| UseInterval.Interval.Start | src/hooks/useInterval.ts:13-22 | on an empty slot, a repeating timer is armed; while armed, the call fails with "Interval already started" and changes nothing |
| UseInterval.Interval.Clear | src/hooks/useInterval.ts:23-28 | cancels and empties; idempotent |
| UseInterval.Interval.Reset | src/hooks/useInterval.ts:30-33 | never fails and ends armed with a fresh interval |
| UseInterval.Interval.SetCallback | src/hooks/useInterval.ts:35-37 | the saved callback becomes the latest one |
| UseInterval.Interval.Fire | src/hooks/useInterval.ts:15-17 | the saved callback runs once and the slot stays armed, unlike the timeout |
| UseInterval.Interval.Mount | src/hooks/useInterval.ts:35-42 | mounting saves the callback and starts successfully |
| UseInterval.Interval.Unmount | src/hooks/useInterval.ts:39-42 | unmounting clears the slot |
| ScannerComponent.ToggleDeviceRequest | src/components/Scanner.tsx:141-148 | no request without a truthy device id or with at most one device; otherwise device `(i+1) mod n` for a found index `i`, and the first device for an unlisted id |
| ScannerComponent.TorchRequest | src/components/Scanner.tsx:150-152 | a request exists iff there is a track with a truthy torch capability; it asks for off exactly when the current setting is on |
| ScannerComponent.TorchRequestAlternates | src/components/Scanner.tsx:150-159 | when the track reads back the requested torch value, the next click requests the opposite one |
| ScannerComponent.ZoomRequest | src/components/Scanner.tsx:153-155 | a request exists iff there is a track with a zoom capability, and it carries the slider's value |
| ScannerComponent.CropSource | src/components/Scanner.tsx:118-119 | the crop's width and height are the frame's scaled by `scale` |
| ScannerComponent.CropSourceCentred | src/components/Scanner.tsx:116-119 | the crop is centred (`x + w/2 = vw/2`, the same for `y`); for a scale in [0, 1] it lies inside the frame |
| ScannerComponent.Component.OnDevices | src/components/Scanner.tsx:44-46 | once at least one device is listed, `{facingMode:'environment'}` is played, and the play passes iff the stream is granted and `video.play()` resolves; otherwise nothing happens |
| ScannerComponent.Component.TimerEffect | src/components/Scanner.tsx:48-59 | both old timers are cleared; both are armed again, with their intervals and tasks, iff the state is PLAYING |
| ScannerComponent.Component.Unmount | src/components/Scanner.tsx:55-58 | the cleanup cancels both timers |
| ScannerComponent.Component.OnStopTimeout | src/components/Scanner.tsx:53 | the fired timeout leaves the table and the session is stopped with no live track |
| ScannerComponent.Component.OnDecodeOutcome | src/components/Scanner.tsx:127-138 | a result cancels the stop timeout, re-arms it for the full `timeout` and reaches `onDecoded`; a rejection reaches `onDecodeError` and changes no timer; no result does nothing |
| ScannerComponent.Component.TogglePlay | src/components/Scanner.tsx:99-108 | PLAYING pauses; PAUSED resumes in place when `video.play()` resolves and fails otherwise; any other state requests the known device, or the default facing mode, stopping exactly the previously bound tracks, and passes iff the stream is granted and plays; a granted stream of fresh tracks is bound and the element is paused iff the play was rejected, a refused one leaves no stream bound |
| ScannerComponent.Component.ToggleDevice | src/components/Scanner.tsx:141-148 | plays exactly the request of `ToggleDeviceRequest`, passing iff the stream is granted and plays, or changes nothing |
| ScannerComponent.Component.ToggleTorch | src/components/Scanner.tsx:150-159 | applies `TorchRequest` when there is one; `settings` becomes the read-back value |
| ScannerComponent.Component.OnChangeZoom | src/components/Scanner.tsx:153-159 | applies `ZoomRequest` when there is one; `settings` becomes the read-back value |
| LibScanner.ExactlyOneFlag | src/lib/Scanner.tsx:30-33 | exactly one of `isPlaying`, `isPaused`, `isStopped` holds |
| LibScanner.IsPlaying | src/lib/Scanner.tsx:31 | playing iff neither paused nor stopped |
| LibScanner.IsPaused | src/lib/Scanner.tsx:32 | paused iff neither playing nor stopped |
| LibScanner.IsStopped | src/lib/Scanner.tsx:33 | stopped iff neither playing nor paused |
| LibScanner.ProbeConstraints | src/lib/Scanner.tsx:43 | the `constraints` prop when given, else the environment facing mode |
| LibScanner.Player.PlayVideo | src/lib/Scanner.tsx:69-84 | no element or no truthy device id: nothing changes; from paused, playback resumes in place, or a rejected `play()` leaves it paused; otherwise a stream for the current device is requested, and either the call fails with nothing changed, or a fresh stream is bound and stored in `streamRef` and then playing, or, when `play()` rejects, bound and live while the state is unchanged; the component's invariant is kept when the call starts from stopped or paused, unless it fails on playback from stopped; from playing a new stream replaces `streamRef` without the old one being stopped, so no such promise is made |
| LibScanner.Player.PauseVideo | src/lib/Scanner.tsx:98-104 | only from playing, and then paused with the stream kept |
| LibScanner.Player.StopVideo | src/lib/Scanner.tsx:105-109 | unconditionally stops every track of `streamRef`, clears the element and records stopped; `streamRef` is kept, so a repeated call stops nothing new; afterwards no camera track is live |
| LibScanner.Player.ToggleVideo | src/lib/Scanner.tsx:110-112 | from paused it plays (and stays paused when `play()` rejects), from playing it pauses, from stopped nothing changes; the invariant is always kept |
| LibScanner.Player.DeviceEffect | src/lib/Scanner.tsx:48-52 | the old `streamRef`'s tracks are stopped before the new device is requested; any other live track stays live; the result is playing iff the stream is granted and plays, and stopped otherwise |
| LibScanner.Player.SelectDevice | src/lib/Scanner.tsx:155 | a new device id runs the device effect for that id and passes iff its stream plays; selecting the current id changes nothing |
| LibScanner.Player.TimerEffect | src/lib/Scanner.tsx:54-67 | the old timers are cleared and both are armed again iff the state is playing |
| LibScanner.Player.OnStopTimeout | src/lib/Scanner.tsx:57 | the fired timeout leaves the table and the component stops |
| LibScanner.Player.StartupAsWritten | src/lib/Scanner.tsx:38-46 | the devices are stored and the initial id is read from the probe's first track; the probe's tracks stay live outside `streamRef`, which breaks the component's invariant |
| LibScanner.Player.Startup | src/lib/Scanner.tsx:38-46 | the same startup with the probe's tracks stopped; the invariant is kept |
| LibScanner.ProbeLeaks | src/lib/Scanner.tsx:38-52 | after startup as written and the device effect it triggers, a probe track is live and bound nowhere |
| ControllerView.TogglePlayCall | src/components/Button/PlayButton.tsx:23-30 | PLAYING maps to pause, PAUSED to play without constraints, anything else to play with the device id constraint when it is truthy, else the environment facing mode (each as an if-and-only-if) |
| PlayButton.Disabled | src/components/Button/PlayButton.tsx:14-16 | disabled iff there is no controller, no state, or LOADING |
| PlayButton.DeviceId | src/components/Button/PlayButton.tsx:17 | the constraints' device id when a controller with constraints is present, else none |
| PlayButton.ShowsPause | src/components/Button/PlayButton.tsx:18 | the pause icon iff the controller is PLAYING; the button is then enabled |
| PlayButton.TogglePlay | src/components/Button/PlayButton.tsx:20-31 | no call without a controller; otherwise the shared toggle rule on the state and the constraints' device id |
| PlayButton.IconMatchesClick | src/components/Button/PlayButton.tsx:18 | the pause icon is shown iff a click pauses |
| PlayButton.EnabledClickCalls | src/components/Button/PlayButton.tsx:14-29 | an enabled button always makes a call; from STOPPED it plays with constraints |
| RotateButton.RotateDevice | src/components/Button/RotateButton.tsx:15-23 | no call iff there is no device or no truthy constraints device id; otherwise it plays the device after the current one |
| RotateButton.RotatePlaysListedDevice | src/components/Button/RotateButton.tsx:20-22 | the device played is always one of the listed devices |
| RotateButton.DevicesLength | src/components/Button/RotateButton.tsx:12 | the number of listed devices, 0 without a controller or a device list |
| RotateButton.DeviceId | src/components/Button/RotateButton.tsx:13 | the constraints' device id when a controller with constraints is present, else none |
| RotateButton.Disabled | src/components/Button/RotateButton.tsx:28 | disabled iff fewer than two devices are listed (no controller or no list counts as none) |
| AssembleRotateButton.RotateDevice | src/components/assemble/RotateButton.tsx:15-23 | the same rule, keyed by the capabilities' device id |
| AssembleRotateButton.AgreesWithButtonRevision | src/components/assemble/RotateButton.tsx:13 | the two revisions make the same call whenever both report the same device id |
| AssembleRotateButton.DeviceId | src/components/assemble/RotateButton.tsx:13 | the capabilities' device id when a controller with capabilities is present, else none |
| AssembleRotateButton.Disabled | src/components/assemble/RotateButton.tsx:28 | disabled iff fewer than two devices are listed |
| TorchButton.IsTorchOn | src/components/Button/TorchButton.tsx:12 | on iff a settings object is present and its `torch` is true; a missing setting counts as off |
| TorchButton.ToggleTorch | src/components/Button/TorchButton.tsx:13-16 | no call iff the torch capability is undefined (so `torch: false` counts as available); otherwise `setTorch` of the opposite of the current setting |
| TorchButton.ClickRequestsOpposite | src/components/Button/TorchButton.tsx:15-21 | an enabled click requests on iff the torch is off or unknown |
| TorchButton.IsTorchCan | src/components/Button/TorchButton.tsx:11 | available iff the capabilities define `torch`, so `torch: false` counts as available |
| TorchButton.Disabled | src/components/Button/TorchButton.tsx:19 | disabled iff the torch capability is undefined |
| ZoomSlider.Descriptor | src/components/Input/ZoomSlider.tsx:10-16 | disabled iff the zoom capability is undefined; min, max and step are copied from it; the value is `settings.zoom` |
| ZoomSlider.OnChange | src/components/Input/ZoomSlider.tsx:22-26 | no call while disabled; otherwise `setZoom` with the new value |
| ZoomSlider.ZoomCapability | src/components/Input/ZoomSlider.tsx:11-14 | the capabilities' zoom range when a controller with capabilities is present, else none |
| Rotation.FindIndex | src/components/Button/RotateButton.tsx:20 | -1 iff the id is not listed; otherwise the first index holding it |
| Rotation.NextIndex | src/components/Button/RotateButton.tsx:21 | in range, wraps to 0 after the last index, equals `(index+1) mod n` |
| Rotation.NextDeviceId | src/components/Button/RotateButton.tsx:20-22 | always the id of a listed device |
| Rotation.NextDeviceIdSelects | src/components/Button/RotateButton.tsx:20-22 | from the device at `i`, the device at `(i+1) mod n`; an unlisted id selects the first device |
| Rotation.ThreeDeviceRotation | src/components/Button/RotateButton.tsx:20-22 | with three devices, the second rotates to the third and the third back to the first |
| Rotation.Rotations | src/components/Button/RotateButton.tsx:21 | repeated rotation stays in range |
| Rotation.RotationsAreCyclic | src/components/Button/RotateButton.tsx:20-21 | `k` rotations from index `i` reach `(i+k) mod n`, so every device is visited and `n` rotations return |
| Geometry.CalculateContainSize | src/utils/index.ts:3-18 | the contained size is positive |
| Geometry.Min | src/utils/index.ts:20 | equals one argument, is at most both, and is `b` when they are equal |
| Geometry.ContainFits | src/utils/index.ts:3-18 | the result fits inside the container |
| Geometry.ContainKeepsRatio | src/utils/index.ts:9-15 | the result has the item's aspect ratio |
| Geometry.ContainTouches | src/utils/index.ts:7-17 | a relatively wider item spans the container's width, any other the container's height |
| Geometry.ContainSameRatio | src/utils/index.ts:7-16 | an item of the container's ratio gives exactly the container |
| Geometry.ContainIdempotent | src/utils/index.ts:3-18 | containing the result again gives the same size |
| Geometry.CenterOffsetBounds | src/components/Scanner/ScannerFrame.tsx:15-16 | the floored offset leaves equal margins up to less than one pixel each, and is non-negative when the inner side fits |
| Geometry.CenterOffset | src/components/Scanner/ScannerFrame.tsx:15-16 | `Math.floor` of half the difference: the greatest integer not above it |
| ScannerFrame.ClipSize | src/components/Scanner/ScannerFrame.tsx:14 | the clip side is positive |
| ScannerFrame.ClipFitsVideo | src/components/Scanner/ScannerFrame.tsx:14 | as written, the clip fits the video's intrinsic size, not the element |
| ScannerFrame.Render | src/components/Scanner/ScannerFrame.tsx:11-26 | nothing without sizes; the box is the client size and opposite borders are equal |
| ScannerFrame.RenderWindow | src/components/Scanner/ScannerFrame.tsx:14-26 | the window between opposite borders is the clip side minus two margins, up to less than 2 px |
| ScannerFrame.NegativeBorders | src/components/Scanner/ScannerFrame.tsx:14-16 | a 1920x1080 video in a 640x360 element gives borders of -190 and -330 px |
| ScannerFrame.CorrectedClipSize | src/components/Scanner/ScannerFrame.tsx:14 | the corrected clip fits the element |
| ScannerFrame.CorrectedRender | src/components/Scanner/ScannerFrame.tsx:11-26 | the same frame shape with the corrected clip |
| ScannerFrame.CorrectedBordersAtLeastMargin | src/components/Scanner/ScannerFrame.tsx:15-16 | with the corrected clip every border is at least the margin, and the window is the clip minus two margins |
| Frame.Render | src/components/Frame.tsx:10-30 | shown iff there are sizes; opposite borders are equal; without sizes the box is unset and each border is the padding (30 by default); with sizes the box is the client size |
| Frame.RenderWindow | src/components/Frame.tsx:11-23 | each border is its offset plus the padding, so the window is the clip side minus two paddings, up to less than 2 px |
| Frame.NegativeBorders | src/components/Frame.tsx:11-13 | the large-video example gives this frame a -190 px border too |
| Frame.CorrectedRender | src/components/Frame.tsx:10-30 | the same frame with the corrected clip |
| Frame.CorrectedBordersAtLeastPadding | src/components/Frame.tsx:20-23 | with the corrected clip no border is thinner than the padding |
| App.Distinct | src/App.tsx:14 | `Array.from(new Set(xs))` keeps exactly the values of `xs`, without duplicates |
| App.DistinctOfNoDuplicates | src/App.tsx:14 | a duplicate-free list is unchanged by the Set round trip |
| App.OnDecoded | src/App.tsx:14 | a falsy result leaves `codes` unchanged; otherwise the codes are the previous ones plus the text, without duplicates |
| App.OnDecodedAppendsIfAbsent | src/App.tsx:14 | on a duplicate-free list, the text is appended at the end iff absent, so first-occurrence order is kept |
| App.OnDecodedIdempotent | src/App.tsx:14 | decoding the same text again changes nothing |
| App.OnDecodedFromEmptyIsDistinct | src/App.tsx:11-14 | from `[]`, any sequence of results keeps `codes` duplicate-free |

## Left out

- The decoder and canvas (`decodeFromImageUrl`, `drawImage`, `toBlob`, object URLs) are foreign calls. A decode attempt is a `DecodeOutcome` parameter.
- Media hardware (`getUserMedia`, device enumeration, `applyConstraints`, `getSettings`) is abstract. Its answers are parameters.
- A granted stream always has at least one track, which the hardware guarantees for a video request. It is a precondition wherever a `reply` is passed.
- Async interleaving and React scheduling are left out. Each handler and effect is one atomic step, and the environment calls a hook's effect methods when React would run them.
- LibScanner.Player.DeviceEffect: reads the state as it is after the cleanup. It does not model the stale `isPaused` that the effect's closure captured.
- UseTimeout.Timeout.Fire: a callback that calls the hook's own `start`, `clear` or `reset` while it runs is not modelled. The callback is an opaque name; it either returns or throws, and it does not touch the hook's handle.
- LibScanner.ProbeConstraints: the `constraints` prop is a whole `MediaStreamConstraints` in the source. The model keeps only its video constraints.
- Timers have no clock. A pending timer fires when its owner's `Fire` or `On...Timeout` method is called.
- Floating point is left out. The geometry uses `real` with positive sizes, so JavaScript's Infinity and NaN do not arise.
- `parseFloat` of the slider value is left out; the value is passed as a `real`.
- Console logging and `navigator.vibrate` have nothing to verify.
- `initFrame` and `initCanvas` only copy element sizes into CSS and the canvas, so they are left out.
- Rendering and styling other than the frame borders is left out.
- ScannerComponent.Component.OnDecodeOutcome: `onDecoded`/`onDecodeError` are modelled as the returned notice, not as calls.
- src/components/assemble/ScannerCore.tsx is not modelled. It relies on a `Size` class that is not in the repository.
- The presentational components, scratch files and re-export files are not part of this model.
- Format switching, a decode lock and a cooldown are not modelled. The shown `useScanner.tsx` has none of them.
- UseScannerHook.Controller.Play: settles the acquisition in the same step. The hook's snapshot changes only through later lifecycle events, which `Dispatch` delivers.

## Findings

| source | as written | input that shows it | evidently intended | confidence | as-written member | corrected member |
|---|---|---|---|---|---|---|
| src/hooks/index.ts:58-64 | the effect's cleanup calls `addEventListener` for `play`, `playing`, `pause` and `loadedmetadata`, and removes only `emptied` | mount on an element with no listeners, then unmount: four handlers of the unmounted hook stay registered | the cleanup removes all five registrations, as src/hooks/useScanner.tsx:108-115 does | high, not executed | ScannerHooks.CleanupLeavesListeners | ScannerHooks.CleanupRemovesListeners |
| src/components/Scanner/ScannerFrame.tsx:14-16 | `calculateContainSize(sizes.video, sizes.client)` measures the clip in the video's intrinsic pixels, but the offsets subtract it from the element's size | a 1920x1080 video in a 640x360 element: clip 1080, borders -190 px and -330 px | the clip is the video's displayed size inside the element, `calculateContainSize(client, video)`, so every border is at least the margin | medium, not executed | ScannerFrame.NegativeBorders | ScannerFrame.CorrectedBordersAtLeastMargin |
| src/components/Frame.tsx:11-13 | the same argument order | the same sizes: a -190 px left border | the same correction; no border is thinner than the padding | medium, not executed | Frame.NegativeBorders | Frame.CorrectedBordersAtLeastPadding |
| src/lib/Scanner.tsx:43 | the probe stream acquired to read the initial device id is never stopped | any startup whose probe is granted: after the device effect binds the real stream, a probe track is still live and bound nowhere | the probe's tracks are stopped once the id is read | medium, not executed | LibScanner.ProbeLeaks | LibScanner.Player.Startup |
