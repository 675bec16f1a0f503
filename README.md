# USB camera session (UvcCameraSession) in Dafny

This project models the session state machine of `UvcCameraSession`, the
WebRTC `CameraSession` that drives an external UVC camera through a USB
monitor. The model keeps the session's own fields: `state` (unset, RUNNING,
STOPPED), `stopped`, `firstFrameReported`, the camera handle `mUVCCamera`,
the preview surface `mPreviewSurface` and `captureFormat`. It also keeps the
queue of open tasks posted to the camera-thread handler. Every outside effect
goes into a ghost log of `Effect`s: onCameraOpening, the texture size, the
surface, listening, monitor register/unregister/destroy, the permission
request, onDone, native open, setPreviewSize, startPreview, close and
destroy, frames forwarded, and onCameraClosed.

Modules, leaf first:

- `Optional` (`optional.dfy`): an `Option` standing for a nullable reference.
- `Orientation` (`orientation.dfy`): `getDeviceOrientation` and
  `getFrameOrientation` as pure functions of the display rotation code.
  Java's truncating `%` is written out as `JavaRem`.
- `CaptureFormats` (`capture_format.dfy`): `findCaptureFormat`, and the
  preview-size fallback of the posted open as `NegotiatePreviewSize`.
- `SessionModel` (`session_model.dfy`): a `Snapshot` of the fields plus the
  log. There is one function per entry point giving the snapshot afterwards.
  `Step`/`Run` replay any sequence of inputs on a started session.
- `SessionProperties` (`session_properties.dfy`): lemmas about those
  functions. Teardown happens at most once. No frame passes after stop.
  The first-frame flag never resets. Start completes once and asks
  permission only for the first device. When no earlier open is still
  posted, a held camera is released before the next open. Given new native
  cameras, no camera is closed or destroyed twice. The store at the end of
  the posted open is unguarded.
- `UvcCameraSession` (`uvc_camera_session.dfy`): the class `Session` with
  the real fields updated in place. Each method is proved to leave
  `Snap()` equal to the matching `SessionModel` function of `old(Snap())`.
  Each entry point also keeps the class invariant `Valid()`.

`onConnect` is split in two, as the code runs it. `OnConnect` releases the
held camera and posts the open; `RunPendingOpen` is the posted runnable
(lines 79-123), which runs later on the handler.

Inputs stand for what the platform decides:

- the thread check (`checkIsOnCameraThread`) is a boolean parameter;
- the display rotation code is an integer;
- "setPreviewSize accepted" is a predicate `accepts` on the size triple;
- native cameras, surfaces, devices and control blocks are `nat` ids;
- an exception inside start's try block is a `StartFault` naming the call
  that throws.

What the code does, in the places where it is easy to expect otherwise:

- A posted open that runs after stop still stores its camera, and a later
  stop never releases it (`SessionProperties.OpenAfterStopStoresCamera`).
  So a native handle can exist in a STOPPED session.
- The release happens when the connect arrives, not when the open runs. So
  two connects queue two opens, and the second overwrites the first camera
  without closing it (`SessionProperties.SecondQueuedOpenOverwrites`).
- `onDisconnect` only releases the handle; the `onCameraError` call is
  commented out in the code. `onDettach` and `onCancel` do nothing.
- There is no OPENING state: start sets RUNNING before any device is
  attached, as soon as the texture size and surface are set up.
- The frame callback computes the frame orientation and discards it; the
  frame is forwarded unchanged.
- The first setPreviewSize passes `framerate.max` where the library expects
  a frame-format mode; the model passes exactly what the code passes.
- `UVCCamera` is not part of this model. The fallback size 640 x 480, mode 0,
  is that library's `DEFAULT_PREVIEW_WIDTH/HEIGHT/MODE`.

## Model

| member | source | states |
|---|---|---|
| `Orientation.JavaRem` | android/src/main/java/org/webrtc/UvcCameraSession.java:350 | Java's `%`: equals Dafny's `%` on non-negative operands and lies strictly between -b and b |
| `Orientation.DeviceOrientation` | android/src/main/java/org/webrtc/UvcCameraSession.java:325-344 | the result is a quarter turn: 90 x code for codes 0..3, and 0 for any other code (the `default` branch) |
| `Orientation.FrameOrientation` | android/src/main/java/org/webrtc/UvcCameraSession.java:346-351 | the result is in {0, 90, 180, 270} and undoes the device orientation modulo 360 |
| `Orientation.FrameOrientationTable` | android/src/main/java/org/webrtc/UvcCameraSession.java:325-351 | the fixed table 0->0, 1->270, 2->180, 3->90, any other code -> 0 |
| `Orientation.FrameOrientationCompensates` | android/src/main/java/org/webrtc/UvcCameraSession.java:346-351 | the Java remainder agrees with `(360 - d) % 360`; the frame orientation is 0 exactly when the device orientation is 0 |
| `CaptureFormats.FindCaptureFormat` | android/src/main/java/org/webrtc/UvcCameraSession.java:221-224 | width and height are the requested ones; min and max frame rate both equal the requested frame rate |
| `CaptureFormats.NegotiatePreviewSize` | android/src/main/java/org/webrtc/UvcCameraSession.java:103-114 | the requested (width, height, framerate.max) is tried first; the default size is tried once, and only if the first is rejected; a size is applied exactly when the last one tried is accepted, and it is that size |
| `CaptureFormats.NoFallbackWhenAccepted` | android/src/main/java/org/webrtc/UvcCameraSession.java:103-105 | an accepted requested size means one attempt, no fallback |
| `CaptureFormats.RequestedSizeFollowsRequest` | android/src/main/java/org/webrtc/UvcCameraSession.java:104 | the first size asked of the camera is the session's requested width, height and frame rate |
| `SessionModel.ReleaseCamera` | android/src/main/java/org/webrtc/UvcCameraSession.java:301-317 | the handle is null afterwards; with a camera held, its callbacks are cleared, then it is closed, then destroyed; with none, nothing changes; no other field changes |
| `SessionModel.OnConnect` | android/src/main/java/org/webrtc/UvcCameraSession.java:74-77 | the held camera is released and the control block is queued behind earlier posted opens; nothing else changes |
| `SessionModel.RunPendingOpen` | android/src/main/java/org/webrtc/UvcCameraSession.java:79-123 | the oldest posted open is consumed; the handle becomes the new camera exactly when a preview size was applied, otherwise it keeps its old value; no other field changes |
| `SessionModel.OnDisconnect` | android/src/main/java/org/webrtc/UvcCameraSession.java:131-136 | only the handle is released, with the same effects as releaseCamera; every other field stays |
| `SessionModel.OnFrame` | android/src/main/java/org/webrtc/UvcCameraSession.java:228-252 | off the camera thread it throws and changes nothing; not RUNNING, the frame is dropped and nothing changes; RUNNING, the received frame is forwarded unchanged and the first-frame flag is set |
| `SessionModel.StopInternal` | android/src/main/java/org/webrtc/UvcCameraSession.java:278-299 | afterwards STOPPED with no surface; if not already STOPPED: listening stops, then the camera is released, then onCameraClosed, then the surface is released |
| `SessionModel.Finalize` | android/src/main/java/org/webrtc/UvcCameraSession.java:266-276 | afterwards `stopped`; a no-op when already stopped; otherwise STOPPED, the handle and surface cleared, and the log ends with unregister then destroy of the monitor |
| `SessionModel.Stop` | android/src/main/java/org/webrtc/UvcCameraSession.java:257-262 | off the camera thread it throws IllegalState and changes nothing; on it, the session ends stopped and STOPPED |
| `SessionModel.StartBody` | android/src/main/java/org/webrtc/UvcCameraSession.java:192-216 | the state becomes RUNNING unless setTextureSize or the surface creation threw; the surface is stored when one was made; nothing else but the log changes |
| `SessionModel.Start` | android/src/main/java/org/webrtc/UvcCameraSession.java:185-219 | off the camera thread it throws and changes nothing; otherwise onCameraOpening comes first, the capture format is set from the request, onDone comes last, and with no fault the state is RUNNING |
| `SessionModel.Step` | android/src/main/java/org/webrtc/UvcCameraSession.java:204-283 | after start, no entry point changes the capture format, none makes the state RUNNING, and none clears the first-frame flag |
| `SessionProperties.ReleaseCameraIdempotent` | android/src/main/java/org/webrtc/UvcCameraSession.java:301-317 | a second releaseCamera changes nothing |
| `SessionProperties.PendingOpenEffects` | android/src/main/java/org/webrtc/UvcCameraSession.java:81-122 | the posted open keeps the earlier log, opens the camera with the posted control block, then installs callbacks; it asks exactly the negotiated sizes of it, in order; the camera is destroyed exactly when no size was applied, and then never bound or previewed; otherwise it is bound to the preview surface and started, as the last two effects |
| `SessionProperties.PendingOpenKeepsInv` | android/src/main/java/org/webrtc/UvcCameraSession.java:79-123 | the posted open adds no teardown effect and keeps the invariant |
| `SessionProperties.ConnectReleasesBeforeOpen` | android/src/main/java/org/webrtc/UvcCameraSession.java:75-82 | when no earlier open is still posted, the held camera's clear/close/destroy come before the open of the connected device (for a second queued open see `SecondQueuedOpenOverwrites`) |
| `SessionProperties.OpenAfterStopStoresCamera` | android/src/main/java/org/webrtc/UvcCameraSession.java:120-122 | a posted open that runs after stop stores its camera in a STOPPED session, and a later stop leaves it there |
| `SessionProperties.SecondQueuedOpenOverwrites` | android/src/main/java/org/webrtc/UvcCameraSession.java:75-122 | two connects then two opens: the handle is the second camera and the first is never closed |
| `SessionProperties.StopIdempotent` | android/src/main/java/org/webrtc/UvcCameraSession.java:257-276 | every stop or finalize after the first changes nothing and emits nothing |
| `SessionProperties.StopInternalTeardown` | android/src/main/java/org/webrtc/UvcCameraSession.java:278-293 | from a session not yet STOPPED, onCameraClosed is emitted exactly once and no frame is forwarded |
| `SessionProperties.FinalizeTeardown` | android/src/main/java/org/webrtc/UvcCameraSession.java:266-276 | from a session neither stopped nor STOPPED, the teardown effects grow by exactly onCameraClosed, unregister, destroy, and no frame is forwarded |
| `SessionProperties.StepPreservesInv` | android/src/main/java/org/webrtc/UvcCameraSession.java:264-276 | every entry point keeps "STOPPED exactly when stopped" and "one teardown round exactly when stopped" |
| `SessionProperties.RunPreservesInv` | android/src/main/java/org/webrtc/UvcCameraSession.java:264-276 | the same invariant holds after any sequence of entry points |
| `SessionProperties.StartEstablishesInv` | android/src/main/java/org/webrtc/UvcCameraSession.java:185-219 | a session just started, whatever threw in the try block, is not stopped, has a capture format and satisfies the invariant |
| `SessionProperties.TeardownAtMostOnce` | android/src/main/java/org/webrtc/UvcCameraSession.java:257-299 | over any history after start, onCameraClosed, unregister and destroy happened not at all or exactly once each, in that order |
| `SessionProperties.StepForwardsOnlyWhileRunning` | android/src/main/java/org/webrtc/UvcCameraSession.java:228-251 | an entry point forwards a frame exactly when it is a frame on the camera thread while RUNNING, and then exactly that frame |
| `SessionProperties.FinalizeForwardsNothing` | android/src/main/java/org/webrtc/UvcCameraSession.java:266-299 | teardown forwards no frame |
| `SessionProperties.NoFrameAfterStop` | android/src/main/java/org/webrtc/UvcCameraSession.java:231-234 | once STOPPED, the session stays STOPPED and forwards no further frame, whatever arrives |
| `SessionProperties.FirstFrameStaysReported` | android/src/main/java/org/webrtc/UvcCameraSession.java:237-242 | once set, the first-frame flag stays set over any history |
| `SessionProperties.FirstFrameSetByRunningFrame` | android/src/main/java/org/webrtc/UvcCameraSession.java:235-242 | a running frame sets the flag; a dropped frame leaves it false |
| `SessionProperties.StartBodyLog` | android/src/main/java/org/webrtc/UvcCameraSession.java:192-213 | the try block emits its calls in order up to the one that throws |
| `SessionProperties.StartLog` | android/src/main/java/org/webrtc/UvcCameraSession.java:185-219 | start emits onCameraOpening, then the try block's effects, then onDone |
| `SessionProperties.StartCallsDoneOnce` | android/src/main/java/org/webrtc/UvcCameraSession.java:214-218 | start adds exactly one onDone, whatever the try block threw |
| `SessionProperties.StartRequestsFirstDevice` | android/src/main/java/org/webrtc/UvcCameraSession.java:209-212 | permission is requested for devices[0] exactly when nothing threw and the list is non-empty, and for no other device |
| `SessionProperties.StartRegistersMonitor` | android/src/main/java/org/webrtc/UvcCameraSession.java:204-207 | the monitor is registered once exactly when the try block gets past startListening |
| `SessionProperties.ReleaseKeepsOnce` | android/src/main/java/org/webrtc/UvcCameraSession.java:301-317 | releaseCamera swaps the handle to null before close and destroy, keeping "no camera closed or destroyed twice, the held one not at all" |
| `SessionProperties.PendingOpenKeepsOnce` | android/src/main/java/org/webrtc/UvcCameraSession.java:103-122 | given a new camera, the posted open destroys only that unstored camera or stores it undestroyed, keeping the same invariant |
| `SessionProperties.StopInternalKeepsOnce` | android/src/main/java/org/webrtc/UvcCameraSession.java:278-299 | stopInternal keeps the invariant |
| `SessionProperties.FinalizeKeepsOnce` | android/src/main/java/org/webrtc/UvcCameraSession.java:266-276 | finalize keeps the invariant |
| `SessionProperties.StepKeepsOnce` | android/src/main/java/org/webrtc/UvcCameraSession.java:70-299 | every entry point keeps the invariant, provided a posted open that runs is handed a new camera |
| `SessionProperties.RunKeepsOnce` | android/src/main/java/org/webrtc/UvcCameraSession.java:70-299 | the invariant holds after any sequence of entry points whose posted opens get new cameras |
| `SessionProperties.StartReleasesNothing` | android/src/main/java/org/webrtc/UvcCameraSession.java:185-219 | start holds no camera and has closed and destroyed none |
| `SessionProperties.NativeCameraReleasedAtMostOnce` | android/src/main/java/org/webrtc/UvcCameraSession.java:301-317 | over any history after start whose posted opens get new cameras, each native camera is closed at most once and destroyed at most once |
| `UvcCameraSession.Session.constructor` | android/src/main/java/org/webrtc/UvcCameraSession.java:158-183 | the fields as the constructor leaves them before start: request stored, state unset, no camera, no surface, no format; `Valid()` holds |
| `UvcCameraSession.Session.FindCaptureFormat` | android/src/main/java/org/webrtc/UvcCameraSession.java:221-224 | only `captureFormat` changes, to the format of the request |
| `UvcCameraSession.Session.Start` | android/src/main/java/org/webrtc/UvcCameraSession.java:185-219 | outcome and new fields are those of `SessionModel.Start` |
| `UvcCameraSession.Session.StartBody` | android/src/main/java/org/webrtc/UvcCameraSession.java:192-216 | early returns for the throwing call give the fields of `SessionModel.StartBody` |
| `UvcCameraSession.Session.ReleaseCamera` | android/src/main/java/org/webrtc/UvcCameraSession.java:301-317 | swap to null, then clear, close, destroy: the fields of `SessionModel.ReleaseCamera` |
| `UvcCameraSession.Session.OnConnect` | android/src/main/java/org/webrtc/UvcCameraSession.java:70-129 | the fields of `SessionModel.OnConnect`; keeps the class invariant `Valid()` |
| `UvcCameraSession.Session.RunPendingOpen` | android/src/main/java/org/webrtc/UvcCameraSession.java:79-123 | the fields of `SessionModel.RunPendingOpen`, and the class invariant is kept |
| `UvcCameraSession.Session.OpenPosted` | android/src/main/java/org/webrtc/UvcCameraSession.java:80-122 | the try/catch fallback written imperatively gives the fields of `SessionModel.RunPendingOpen` |
| `UvcCameraSession.Session.OnDisconnect` | android/src/main/java/org/webrtc/UvcCameraSession.java:131-136 | the fields of `SessionModel.OnDisconnect`; keeps the class invariant `Valid()` |
| `UvcCameraSession.Session.OnDettach` | android/src/main/java/org/webrtc/UvcCameraSession.java:138-141 | changes no field; keeps the class invariant `Valid()` |
| `UvcCameraSession.Session.OnCancel` | android/src/main/java/org/webrtc/UvcCameraSession.java:143-146 | changes no field; keeps the class invariant `Valid()` |
| `UvcCameraSession.Session.OnFrame` | android/src/main/java/org/webrtc/UvcCameraSession.java:226-253 | outcome and fields of `SessionModel.OnFrame`; keeps the class invariant `Valid()` |
| `UvcCameraSession.Session.StopInternal` | android/src/main/java/org/webrtc/UvcCameraSession.java:278-299 | the fields of `SessionModel.StopInternal` |
| `UvcCameraSession.Session.Finalize` | android/src/main/java/org/webrtc/UvcCameraSession.java:266-276 | the fields of `SessionModel.Finalize`; keeps the class invariant `Valid()` |
| `UvcCameraSession.Session.Stop` | android/src/main/java/org/webrtc/UvcCameraSession.java:257-262 | outcome and fields of `SessionModel.Stop`; keeps the class invariant `Valid()` |
| `UvcCameraSession.Create` | android/src/main/java/org/webrtc/UvcCameraSession.java:151-156 | no session when start's thread check throws; otherwise a fresh session satisfying the invariant whose fields are those of a start from the constructor's state |

## Left out

- Vendor USB library (`USBMonitor`, `UVCCamera`, `DeviceFilter`): modelled only by the ids and effects it is called with; its native code and the device-filter XML are not part of this model.
- Exceptions outside start's try block: every vendor and platform call there is assumed to return normally. This covers:
  - the teardown calls `surfaceTextureHelper.stopListening` (line 284), `mUSBMonitor.unregister` and `mUSBMonitor.destroy` (273-274) and `mPreviewSurface.release` (296);
  - the calls inside `releaseCamera` (307-314);
  - in the posted open, `camera.open`, `setStatusCallback` and `setButtonCallback` (82-101), `camera.destroy` in the fallback (111), `setPreviewDisplay` and `startPreview` (115-116);
  - `onCameraOpening`, `onDone` and `onFrameCaptured` (249).

  Only the IllegalArgumentException of `setPreviewSize` is modelled; an exception from `onCameraClosed` is swallowed by the code, so the model records the call either way. `TeardownAtMostOnce`, `StopIdempotent` and `NativeCameraReleasedAtMostOnce` rest on this: in the code, an `unregister` that throws leaves the session STOPPED with `stopped` false, so the next stop calls `unregister` again, and a `stopListening` that throws leaves the camera held for good.
- `MediaRecorder.setInputSurface` and its SDK-version gate (lines 198-202): the constructor (158-183) never assigns the `mediaRecorder` field, so it is always null and the branch never runs. If it were set, `setInputSurface` could throw inside the try block and skip `state = RUNNING`.
- `Surface`, `SurfaceTexture`, `SurfaceTextureHelper`, `WindowManager`, `Context`: platform objects. The surface is an optional id, and the rotation code is an input.
- `Handler`, posting, `synchronized`/`mSync`: the session is single-threaded; the posted open is the explicit `RunPendingOpen` step, and thread affinity is a boolean input.
- `System.nanoTime` and the first-frame latency (lines 238-240): a clock read whose value is overwritten at line 244.
- `onAttach` (lines 64-67), the status and button callbacks (lines 84-101) and all logging: they only log.
- Device filter setup in the constructor (lines 170-175): configuration of the vendor library.
- `UvcCamera2Enumerator.java` and `UvcCameraCapturer.java`: thin glue over WebRTC base classes that are not part of this model.
- Java `int` width: width, height and frame rate are only copied, never computed with, so 32-bit overflow cannot arise and the model uses unbounded integers.
