/**
 * The camera session as the object it is: its fields are updated in place by
 * the entry points below, and each entry point is proved to leave the fields
 * (and the ghost effect log) exactly as the matching SessionModel function
 * says. Thread checks are boolean inputs; the handler queue is `posted`.
 */
module UvcCameraSession {
  import opened Optional
  import opened CaptureFormats
  import opened Orientation
  import opened SessionModel
  import SessionProperties

  class Session {
    const width: int
    const height: int
    const framerate: int
    var state: SessionState
    var stopped: bool
    var firstFrameReported: bool
    var camera: Option<CameraId>             // mUVCCamera
    var previewSurface: Option<SurfaceId>    // mPreviewSurface
    var captureFormat: Option<CaptureFormat>
    var posted: seq<ControlBlock>            // open tasks waiting in the camera-thread handler
    ghost var log: seq<Effect>

    ghost function Snap(): Snapshot
      reads this
    {
      Snapshot(width, height, framerate, state, stopped, firstFrameReported,
               camera, previewSurface, captureFormat, posted, log)
    }

    /** The class invariant: STOPPED exactly when `stopped`, and one teardown round exactly then. */
    ghost predicate Valid()
      reads this
    {
      Inv(Snap())
    }

    /** The constructor up to its call of start: the request is stored, nothing else is set. */
    constructor (width: int, height: int, framerate: int)
      ensures Snap() == Initial(width, height, framerate)
      ensures Valid()
    {
      this.width, this.height, this.framerate := width, height, framerate;
      state, stopped, firstFrameReported := Unset, false, false;
      camera, previewSurface, captureFormat := None, None, None;
      posted, log := [], [];
    }

    /** findCaptureFormat: only `captureFormat` changes. */
    method FindCaptureFormat()
      modifies this`captureFormat
      ensures captureFormat == Some(CaptureFormats.FindCaptureFormat(width, height, framerate))
    {
      captureFormat := Some(CaptureFormat(width, height, FramerateRange(framerate, framerate)));
    }

    /** start. */
    method Start(onCameraThread: bool, newSurface: Option<SurfaceId>, devices: seq<DeviceId>, fault: StartFault)
      returns (outcome: Outcome)
      modifies this
      ensures var r := SessionModel.Start(old(Snap()), onCameraThread, newSurface, devices, fault);
              outcome == r.outcome && Snap() == r.next
    {
      if !onCameraThread {
        return IllegalState;
      }
      log := log + [CameraOpening];
      FindCaptureFormat();
      StartBody(newSurface, devices, fault);
      log := log + [SessionDone];
      outcome := Completed;
    }

    /** The try block of start; each `return` is a call that threw into the catch. */
    method StartBody(newSurface: Option<SurfaceId>, devices: seq<DeviceId>, fault: StartFault)
      requires captureFormat.Some?
      modifies this
      ensures Snap() == SessionModel.StartBody(old(Snap()), newSurface, devices, fault)
    {
      var format := captureFormat.value;
      if fault == TextureSizeFault { return; }
      log := log + [TextureSizeSet(format.width, format.height)];
      if fault == SurfaceFault { return; }
      if newSurface.Some? {
        previewSurface := newSurface;
        log := log + [PreviewSurfaceCreated(newSurface.value)];
      }
      state := Running;
      if fault == ListenFault { return; }
      log := log + [ListeningStarted];
      if fault == RegisterFault { return; }
      log := log + [MonitorRegistered];
      if fault == DeviceListFault { return; }
      if |devices| > 0 {
        if fault == PermissionFault { return; }
        log := log + [PermissionRequested(devices[0])];
      }
    }

    /** releaseCamera. */
    method ReleaseCamera()
      modifies this
      ensures Snap() == SessionModel.ReleaseCamera(old(Snap()))
    {
      if camera.Some? {
        var held := camera.value;
        camera := None;
        log := log + [CallbacksCleared(held), CameraClosed(held), CameraDestroyed(held)];
      }
    }

    /** onConnect: release now, post the open. */
    method OnConnect(ctrl: ControlBlock)
      requires Valid() && captureFormat.Some?
      modifies this
      ensures Snap() == SessionModel.OnConnect(old(Snap()), ctrl)
      ensures Valid()
    {
      SessionProperties.StepPreservesInv(Snap(), Connect(ctrl));
      ReleaseCamera();
      posted := posted + [ctrl];
    }

    /** The posted open, when the handler runs it: the class invariant is kept. */
    method RunPendingOpen(newCamera: CameraId, accepts: PreviewSize -> bool)
      requires Valid() && posted != [] && captureFormat.Some?
      modifies this
      ensures Snap() == SessionModel.RunPendingOpen(old(Snap()), newCamera, accepts)
      ensures Valid()
    {
      SessionProperties.PendingOpenKeepsInv(Snap(), newCamera, accepts);
      OpenPosted(newCamera, accepts);
    }

    /** The body of the posted runnable: open, negotiate the preview size, then destroy or store. */
    method OpenPosted(newCamera: CameraId, accepts: PreviewSize -> bool)
      requires posted != [] && captureFormat.Some?
      modifies this
      ensures Snap() == SessionModel.RunPendingOpen(old(Snap()), newCamera, accepts)
    {
      ghost var before := Snap();
      ghost var n := NegotiatePreviewSize(captureFormat.value, accepts);
      var ctrl := posted[0];
      posted := posted[1..];
      log := log + [NativeOpened(newCamera, ctrl), CallbacksInstalled(newCamera)];
      var requested := RequestedPreviewSize(captureFormat.value);
      log := log + [PreviewSizeRequested(newCamera, requested)];
      if !accepts(requested) {
        // fall back to the library's default size and mode, once
        log := log + [PreviewSizeRequested(newCamera, DefaultPreviewSize)];
        assert SizeRequests(newCamera, n.tried) == [PreviewSizeRequested(newCamera, requested), PreviewSizeRequested(newCamera, DefaultPreviewSize)];
        if !accepts(DefaultPreviewSize) {
          log := log + [CameraDestroyed(newCamera)];
          assert Snap() == SessionModel.RunPendingOpen(before, newCamera, accepts);
          return;
        }
      } else {
        assert SizeRequests(newCamera, n.tried) == [PreviewSizeRequested(newCamera, requested)];
      }
      log := log + [PreviewDisplaySet(newCamera, previewSurface), PreviewStarted(newCamera)];
      camera := Some(newCamera);
      assert Snap() == SessionModel.RunPendingOpen(before, newCamera, accepts);
    }

    /** onDisconnect. */
    method OnDisconnect()
      requires Valid() && captureFormat.Some?
      modifies this
      ensures Snap() == SessionModel.OnDisconnect(old(Snap()))
      ensures Valid()
    {
      SessionProperties.StepPreservesInv(Snap(), Disconnect);
      ReleaseCamera();
    }

    /** onDettach: its body is a comment; no field may change. */
    method OnDettach(device: DeviceId)
      requires Valid()
      ensures Snap() == old(Snap())
      ensures Valid()
    {
    }

    /** onCancel: its body is a comment; no field may change. */
    method OnCancel(device: DeviceId)
      requires Valid()
      ensures Snap() == old(Snap())
      ensures Valid()
    {
    }

    /** The frame callback registered by listenForTextureFrames. */
    method OnFrame(frame: VideoFrame, onCameraThread: bool, rotationCode: int) returns (outcome: Outcome)
      requires Valid() && captureFormat.Some?
      modifies this
      ensures var r := SessionModel.OnFrame(old(Snap()), frame, onCameraThread);
              outcome == r.outcome && Snap() == r.next
      ensures Valid()
    {
      SessionProperties.StepPreservesInv(Snap(), FrameArrived(frame, onCameraThread));
      if !onCameraThread {
        return IllegalState;
      }
      outcome := Completed;
      if state != Running {
        return;   // dropped
      }
      if !firstFrameReported {
        firstFrameReported := true;
      }
      // computed as in the callback, but not attached to the frame handed on
      var rotation := FrameOrientation(rotationCode);
      log := log + [FrameForwarded(frame)];
    }

    /** stopInternal. */
    method StopInternal()
      modifies this
      ensures Snap() == SessionModel.StopInternal(old(Snap()))
    {
      if state != Stopped {
        state := Stopped;
        log := log + [ListeningStopped];
        ReleaseCamera();
        log := log + [CameraClosedNotified];
      }
      if previewSurface.Some? {
        log := log + [PreviewSurfaceReleased(previewSurface.value)];
        previewSurface := None;
      }
    }

    /** finalize. */
    method Finalize()
      requires Valid() && captureFormat.Some?
      modifies this
      ensures Snap() == SessionModel.Finalize(old(Snap()))
      ensures Valid()
    {
      SessionProperties.StepPreservesInv(Snap(), Finalized);
      if stopped {
        return;
      }
      if state != Stopped {
        StopInternal();
      }
      log := log + [MonitorUnregistered, MonitorDestroyed];
      stopped := true;
    }

    /** stop. */
    method Stop(onCameraThread: bool) returns (outcome: Outcome)
      requires Valid() && captureFormat.Some?
      modifies this
      ensures var r := SessionModel.Stop(old(Snap()), onCameraThread);
              outcome == r.outcome && Snap() == r.next
      ensures Valid()
    {
      SessionProperties.StepPreservesInv(Snap(), StopCalled(onCameraThread));
      if !onCameraThread {
        return IllegalState;
      }
      Finalize();
      outcome := Completed;
    }
  }

  /**
   * create: construct, then start. When start's thread check throws, the
   * exception leaves the constructor and no session exists.
   */
  method Create(width: int, height: int, framerate: int, onCameraThread: bool,
                newSurface: Option<SurfaceId>, devices: seq<DeviceId>, fault: StartFault)
    returns (session: Session?)
    ensures session == null <==> !onCameraThread
    ensures session != null ==>
              && fresh(session) && session.Valid() && !session.stopped
              && session.Snap() == SessionModel.Start(Initial(width, height, framerate), true, newSurface, devices, fault).next
  {
    var s := new Session(width, height, framerate);
    var outcome := s.Start(onCameraThread, newSurface, devices, fault);
    if outcome == IllegalState {
      return null;
    }
    SessionProperties.StartEstablishesInv(width, height, framerate, newSurface, devices, fault);
    session := s;
  }
}
