/**
 * The USB camera session as values: a Snapshot of every field the session
 * updates, plus the log of external effects it has caused, and one function
 * per entry point giving the snapshot after that entry point runs. The
 * class in module UvcCameraSession is proved to follow these functions.
 *
 * Native objects (the UVC camera, the preview surface, USB devices and their
 * control blocks) are opaque ids supplied by the environment.
 */
module SessionModel {
  import opened Optional
  import opened CaptureFormats

  type CameraId = nat
  type SurfaceId = nat
  type DeviceId = nat
  type ControlBlock = nat

  /** A frame handed over by the texture helper; the session never looks inside. */
  datatype VideoFrame = VideoFrame(buffer: nat, rotation: int, timestampNs: int)

  /** `state`: null until start reaches its assignment, then RUNNING, then STOPPED. */
  datatype SessionState = Unset | Running | Stopped

  /** How an entry point ends: normally, or with the wrong-thread IllegalStateException. */
  datatype Outcome = Completed | IllegalState

  /** Which call inside start's try block throws (its exception is caught and printed). */
  datatype StartFault =
    | NoFault
    | TextureSizeFault      // surfaceTextureHelper.setTextureSize
    | SurfaceFault          // getSurfaceTexture or new Surface
    | ListenFault           // surfaceTextureHelper.startListening
    | RegisterFault         // mUSBMonitor.register
    | DeviceListFault       // mUSBMonitor.getDeviceList
    | PermissionFault       // mUSBMonitor.requestPermission

  /** The externally visible effects, in the order the session causes them. */
  datatype Effect =
    | CameraOpening                                   // events.onCameraOpening
    | TextureSizeSet(width: int, height: int)
    | PreviewSurfaceCreated(surface: SurfaceId)
    | ListeningStarted
    | MonitorRegistered
    | PermissionRequested(device: DeviceId)
    | SessionDone                                     // callback.onDone
    | NativeOpened(camera: CameraId, ctrl: ControlBlock)
    | CallbacksInstalled(camera: CameraId)
    | PreviewSizeRequested(camera: CameraId, size: PreviewSize)
    | PreviewDisplaySet(camera: CameraId, display: Option<SurfaceId>)
    | PreviewStarted(camera: CameraId)
    | CallbacksCleared(camera: CameraId)
    | CameraClosed(camera: CameraId)
    | CameraDestroyed(camera: CameraId)
    | FrameForwarded(frame: VideoFrame)               // events.onFrameCaptured
    | ListeningStopped
    | CameraClosedNotified                            // events.onCameraClosed
    | PreviewSurfaceReleased(surface: SurfaceId)
    | MonitorUnregistered
    | MonitorDestroyed

  /**
   * The session's fields. `posted` is the queue of open tasks that onConnect
   * has posted to the camera-thread handler and that have not run yet.
   */
  datatype Snapshot = Snapshot(
    width: int, height: int, framerate: int,
    state: SessionState,
    stopped: bool,
    firstFrameReported: bool,
    camera: Option<CameraId>,
    previewSurface: Option<SurfaceId>,
    captureFormat: Option<CaptureFormat>,
    posted: seq<ControlBlock>,
    log: seq<Effect>)

  datatype StepResult = StepResult(outcome: Outcome, next: Snapshot)

  /** The fields as the constructor leaves them just before it calls start. */
  function Initial(width: int, height: int, framerate: int): Snapshot
  {
    Snapshot(width, height, framerate, Unset, false, false, None, None, None, [], [])
  }

  // ---------------------------------------------------------------- effects

  function ReleaseEffects(camera: Option<CameraId>): seq<Effect>
  {
    match camera
    case None => []
    case Some(c) => [CallbacksCleared(c), CameraClosed(c), CameraDestroyed(c)]
  }

  function SurfaceReleaseEffects(surface: Option<SurfaceId>): seq<Effect>
  {
    match surface
    case None => []
    case Some(p) => [PreviewSurfaceReleased(p)]
  }

  function SizeRequests(camera: CameraId, sizes: seq<PreviewSize>): (r: seq<Effect>)
    ensures |r| == |sizes|
    ensures forall k :: 0 <= k < |sizes| ==> r[k] == PreviewSizeRequested(camera, sizes[k])
  {
    if sizes == [] then [] else [PreviewSizeRequested(camera, sizes[0])] + SizeRequests(camera, sizes[1..])
  }

  // ---------------------------------------------------------------- camera handle

  /**
   * releaseCamera: swap the handle to null, then clear the old camera's
   * callbacks, close it and destroy it. With no camera held, nothing happens.
   */
  function ReleaseCamera(s: Snapshot): (r: Snapshot)
    ensures r.camera == None
    ensures s.camera == None ==> r == s
    ensures s.camera.Some? ==> r.log == s.log + [CallbacksCleared(s.camera.value), CameraClosed(s.camera.value), CameraDestroyed(s.camera.value)]
    ensures r.(log := s.log, camera := s.camera) == s
  {
    s.(camera := None, log := s.log + ReleaseEffects(s.camera))
  }

  // ---------------------------------------------------------------- device-connect listener

  /** onConnect: release the held camera now, and post the open of `ctrl` for later. */
  function OnConnect(s: Snapshot, ctrl: ControlBlock): (r: Snapshot)
    ensures r.camera == None
    ensures r.posted == s.posted + [ctrl]
    ensures r.log == ReleaseCamera(s).log
    ensures r.(log := s.log, camera := s.camera, posted := s.posted) == s
  {
    ReleaseCamera(s).(posted := s.posted + [ctrl])
  }

  /**
   * The task onConnect posted, when the handler runs it: open a new native
   * camera, negotiate the preview size, and either destroy the camera (both
   * sizes rejected) or bind the surface, start preview and store the handle.
   * The store is unconditional: whatever `camera` held is overwritten.
   */
  function RunPendingOpen(s: Snapshot, newCamera: CameraId, accepts: PreviewSize -> bool): (r: Snapshot)
    requires s.posted != [] && s.captureFormat.Some?
    ensures r.posted == s.posted[1..]
    ensures r.camera == if NegotiatePreviewSize(s.captureFormat.value, accepts).applied.Some? then Some(newCamera) else s.camera
    ensures r.(log := s.log, camera := s.camera, posted := s.posted) == s
  {
    var n := NegotiatePreviewSize(s.captureFormat.value, accepts);
    var afterOpen := s.log + [NativeOpened(newCamera, s.posted[0]), CallbacksInstalled(newCamera)] + SizeRequests(newCamera, n.tried);
    if n.applied.Some? then
      s.(posted := s.posted[1..], camera := Some(newCamera),
         log := afterOpen + [PreviewDisplaySet(newCamera, s.previewSurface), PreviewStarted(newCamera)])
    else
      s.(posted := s.posted[1..], log := afterOpen + [CameraDestroyed(newCamera)])
  }

  /** onDisconnect: only the handle is released; the monitor and the state stay. */
  function OnDisconnect(s: Snapshot): (r: Snapshot)
    ensures r.camera == None
    ensures r.state == s.state && r.stopped == s.stopped && r.posted == s.posted
    ensures r.log == ReleaseCamera(s).log
    ensures r.(camera := s.camera, log := s.log) == s
  {
    ReleaseCamera(s)
  }

  // ---------------------------------------------------------------- frames

  /**
   * The frame callback installed by listenForTextureFrames. Off the camera
   * thread it throws; while not RUNNING the frame is dropped; otherwise the
   * first-frame flag is set and the frame is handed on unchanged.
   */
  function OnFrame(s: Snapshot, frame: VideoFrame, onCameraThread: bool): (r: StepResult)
    ensures r.outcome == IllegalState <==> !onCameraThread
    ensures !(onCameraThread && s.state == Running) ==> r.next == s
    ensures onCameraThread && s.state == Running ==>
              r.next.firstFrameReported && r.next.log == s.log + [FrameForwarded(frame)]
    ensures r.next.(firstFrameReported := s.firstFrameReported, log := s.log) == s
  {
    if !onCameraThread then StepResult(IllegalState, s)
    else if s.state != Running then StepResult(Completed, s)
    else StepResult(Completed, s.(firstFrameReported := true, log := s.log + [FrameForwarded(frame)]))
  }

  // ---------------------------------------------------------------- teardown

  /**
   * stopInternal: unless already STOPPED, mark STOPPED, stop listening,
   * release the camera and notify onCameraClosed (an exception from the
   * listener is swallowed, so the notification counts as made). In every
   * case a held preview surface is released and cleared.
   */
  function StopInternal(s: Snapshot): (r: Snapshot)
    ensures r.state == Stopped && r.previewSurface == None
    ensures r.camera == if s.state == Stopped then s.camera else None
    ensures s.state != Stopped ==>
              r.log == s.log + [ListeningStopped] + ReleaseEffects(s.camera) + [CameraClosedNotified]
                             + SurfaceReleaseEffects(s.previewSurface)
    ensures s.state == Stopped ==> r.log == s.log + SurfaceReleaseEffects(s.previewSurface)
    ensures r.(state := s.state, camera := s.camera, previewSurface := s.previewSurface, log := s.log) == s
  {
    var t :=
      if s.state == Stopped then s
      else
        var u := ReleaseCamera(s.(state := Stopped, log := s.log + [ListeningStopped]));
        u.(log := u.log + [CameraClosedNotified]);
    match t.previewSurface
    case None => t
    case Some(p) => t.(previewSurface := None, log := t.log + [PreviewSurfaceReleased(p)])
  }

  /**
   * finalize: a no-op once `stopped`; otherwise stopInternal (if not yet
   * STOPPED), then unregister and destroy the USB monitor, then set `stopped`.
   */
  function Finalize(s: Snapshot): (r: Snapshot)
    ensures r.stopped
    ensures s.stopped ==> r == s
    ensures !s.stopped ==> r.state == Stopped
    ensures !s.stopped && s.state != Stopped ==> r.camera == None && r.previewSurface == None
    ensures !s.stopped ==> |r.log| >= 2 && r.log[|r.log| - 2..] == [MonitorUnregistered, MonitorDestroyed]
    ensures r.(stopped := s.stopped, state := s.state, camera := s.camera, previewSurface := s.previewSurface, log := s.log) == s
  {
    if s.stopped then s
    else
      var t := if s.state != Stopped then StopInternal(s) else s;
      t.(stopped := true, log := t.log + [MonitorUnregistered, MonitorDestroyed])
  }

  /** stop: the thread check, then finalize. */
  function Stop(s: Snapshot, onCameraThread: bool): (r: StepResult)
    ensures r.outcome == IllegalState <==> !onCameraThread
    ensures !onCameraThread ==> r.next == s
    ensures onCameraThread ==> r.next.stopped && r.next.state == (if s.stopped then s.state else Stopped)
  {
    if !onCameraThread then StepResult(IllegalState, s) else StepResult(Completed, Finalize(s))
  }

  // ---------------------------------------------------------------- start

  /**
   * The try block of start, given the format already computed. Each fault
   * throws at its call; the rest of the block is skipped. The state becomes
   * RUNNING once the texture size and the surface are in place, before
   * listening starts and before the monitor is registered; permission is
   * asked only for the first listed device.
   */
  function StartBody(s: Snapshot, newSurface: Option<SurfaceId>, devices: seq<DeviceId>, fault: StartFault): (r: Snapshot)
    requires s.captureFormat.Some?
    ensures r.state == if fault in {TextureSizeFault, SurfaceFault} then s.state else Running
    ensures r.previewSurface == if fault !in {TextureSizeFault, SurfaceFault} && newSurface.Some? then newSurface else s.previewSurface
    ensures r.(state := s.state, previewSurface := s.previewSurface, log := s.log) == s
  {
    var f := s.captureFormat.value;
    if fault == TextureSizeFault then s
    else
      var s1 := s.(log := s.log + [TextureSizeSet(f.width, f.height)]);
      if fault == SurfaceFault then s1
      else
        var s2 := if newSurface.Some?
                  then s1.(previewSurface := newSurface, log := s1.log + [PreviewSurfaceCreated(newSurface.value)])
                  else s1;
        var s3 := s2.(state := Running);
        if fault == ListenFault then s3
        else
          var s4 := s3.(log := s3.log + [ListeningStarted]);
          if fault == RegisterFault then s4
          else
            var s5 := s4.(log := s4.log + [MonitorRegistered]);
            if fault == DeviceListFault || |devices| == 0 || fault == PermissionFault then s5
            else s5.(log := s5.log + [PermissionRequested(devices[0])])
  }

  /**
   * start: the thread check (outside the try, so its exception escapes and
   * nothing else happens), onCameraOpening, findCaptureFormat, the try block,
   * and callback.onDone whatever the try block did.
   */
  function Start(s: Snapshot, onCameraThread: bool, newSurface: Option<SurfaceId>, devices: seq<DeviceId>, fault: StartFault): (r: StepResult)
    ensures r.outcome == IllegalState <==> !onCameraThread
    ensures !onCameraThread ==> r.next == s
    ensures onCameraThread ==>
              r.next.captureFormat == Some(FindCaptureFormat(s.width, s.height, s.framerate))
              && |r.next.log| >= |s.log| + 2 && r.next.log[..|s.log|] == s.log
              && r.next.log[|s.log|] == CameraOpening
              && r.next.log[|r.next.log| - 1] == SessionDone
    ensures onCameraThread && fault == NoFault ==> r.next.state == Running
  {
    if !onCameraThread then StepResult(IllegalState, s)
    else
      var opening := s.(log := s.log + [CameraOpening], captureFormat := Some(FindCaptureFormat(s.width, s.height, s.framerate)));
      var body := StartBody(opening, newSurface, devices, fault);
      StepResult(Completed, body.(log := body.log + [SessionDone]))
  }

  // ---------------------------------------------------------------- traces

  /** What can happen to a started session, one entry point at a time. */
  datatype Input =
    | Connect(ctrl: ControlBlock)
    | PendingOpen(newCamera: CameraId, accepts: PreviewSize -> bool)
    | Disconnect
    | Dettach
    | Cancel
    | FrameArrived(frame: VideoFrame, onFrameThread: bool)
    | StopCalled(onStopThread: bool)
    | Finalized

  /**
   * One input. A PendingOpen with no posted task has nothing to run. The
   * state only ever stays or becomes STOPPED: RUNNING is set by start alone.
   */
  function Step(s: Snapshot, i: Input): (r: Snapshot)
    requires s.captureFormat.Some?
    ensures r.captureFormat == s.captureFormat
    ensures r.state == s.state || r.state == Stopped
    ensures s.firstFrameReported ==> r.firstFrameReported
  {
    match i
    case Connect(ctrl) => OnConnect(s, ctrl)
    case PendingOpen(c, accepts) => if s.posted == [] then s else RunPendingOpen(s, c, accepts)
    case Disconnect => OnDisconnect(s)
    case Dettach => s
    case Cancel => s
    case FrameArrived(frame, onThread) => OnFrame(s, frame, onThread).next
    case StopCalled(onThread) => Stop(s, onThread).next
    case Finalized => Finalize(s)
  }

  function Run(s: Snapshot, inputs: seq<Input>): (r: Snapshot)
    requires s.captureFormat.Some?
    ensures r.captureFormat == s.captureFormat
    decreases |inputs|
  {
    if inputs == [] then s else Run(Step(s, inputs[0]), inputs[1..])
  }

  // ---------------------------------------------------------------- log views

  predicate IsFrame(e: Effect) { e.FrameForwarded? }

  predicate IsTeardown(e: Effect) { e == CameraClosedNotified || e == MonitorUnregistered || e == MonitorDestroyed }

  predicate IsDone(e: Effect) { e == SessionDone }

  predicate IsSizeRequest(e: Effect) { e.PreviewSizeRequested? }

  /** The effects of `log` that `keep` selects, in order. */
  function Filter(log: seq<Effect>, keep: Effect -> bool): (r: seq<Effect>)
    ensures |r| <= |log|
  {
    if log == [] then [] else (if keep(log[0]) then [log[0]] else []) + Filter(log[1..], keep)
  }

  /** The teardown effects a session has caused, in order: none before stop, one round after. */
  ghost predicate Inv(s: Snapshot)
  {
    && (s.state == Stopped <==> s.stopped)
    && Filter(s.log, IsTeardown) == (if s.stopped then [CameraClosedNotified, MonitorUnregistered, MonitorDestroyed] else [])
  }
}
