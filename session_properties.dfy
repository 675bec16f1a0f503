/**
 * What the session guarantees, stated on the value model: teardown happens
 * once, frames pass only while RUNNING, the first-frame flag never resets,
 * start announces itself and completes once, and the two places where the
 * unguarded store of the posted open lets a camera outlive its handle.
 */
module SessionProperties {
  import opened Optional
  import opened CaptureFormats
  import opened SessionModel

  // ---------------------------------------------------------------- Filter

  lemma {:induction false} FilterAppend(a: seq<Effect>, b: seq<Effect>, keep: Effect -> bool)
    ensures Filter(a + b, keep) == Filter(a, keep) + Filter(b, keep)
  {
    if a == [] {
      assert a + b == b;
    } else {
      var head := if keep(a[0]) then [a[0]] else [];
      assert (a + b)[0] == a[0];
      assert (a + b)[1..] == a[1..] + b;
      assert Filter(a + b, keep) == head + Filter(a[1..] + b, keep);
      FilterAppend(a[1..], b, keep);
      assert Filter(a, keep) == head + Filter(a[1..], keep);
    }
  }

  lemma {:induction false} FilterNone(b: seq<Effect>, keep: Effect -> bool)
    requires forall e :: e in b ==> !keep(e)
    ensures Filter(b, keep) == []
  {
    if b != [] {
      assert b[0] in b;
      assert forall e :: e in b[1..] ==> e in b;
      FilterNone(b[1..], keep);
    }
  }

  /** Appending effects that `keep` does not select leaves the filtered log as it was. */
  lemma FilterExtend(a: seq<Effect>, b: seq<Effect>, keep: Effect -> bool)
    requires forall e :: e in b ==> !keep(e)
    ensures Filter(a + b, keep) == Filter(a, keep)
  {
    FilterAppend(a, b, keep);
    FilterNone(b, keep);
    assert Filter(a, keep) + [] == Filter(a, keep);
  }

  lemma FilterSmall(x: seq<Effect>, keep: Effect -> bool)
    requires |x| <= 1
    ensures Filter(x, keep) == if x != [] && keep(x[0]) then x else []
  {
    if x != [] {
      assert x[1..] == [];
      assert x == [x[0]];
    }
  }

  lemma FilterOne(a: seq<Effect>, e: Effect, keep: Effect -> bool)
    ensures Filter(a + [e], keep) == Filter(a, keep) + (if keep(e) then [e] else [])
  {
    FilterAppend(a, [e], keep);
    FilterSmall([e], keep);
  }

  // ---------------------------------------------------------------- quiet effects

  /** Effects that are neither a forwarded frame nor part of the teardown round. */
  predicate Quiet(e: Effect) { !IsFrame(e) && !IsTeardown(e) }

  /** `b` is `a` followed by quiet effects only. */
  ghost predicate QuietExtension(a: seq<Effect>, b: seq<Effect>)
  {
    |a| <= |b| && b[..|a|] == a && forall e :: e in b[|a|..] ==> Quiet(e)
  }

  lemma QuietFilters(a: seq<Effect>, b: seq<Effect>)
    requires QuietExtension(a, b)
    ensures Filter(b, IsFrame) == Filter(a, IsFrame)
    ensures Filter(b, IsTeardown) == Filter(a, IsTeardown)
  {
    assert b == a + b[|a|..];
    FilterExtend(a, b[|a|..], IsFrame);
    FilterExtend(a, b[|a|..], IsTeardown);
  }

  lemma QuietAppend(a: seq<Effect>, x: seq<Effect>)
    requires forall e :: e in x ==> Quiet(e)
    ensures QuietExtension(a, a + x)
  {
    assert (a + x)[..|a|] == a;
    assert (a + x)[|a|..] == x;
  }

  lemma ConnectIsQuiet(s: Snapshot, ctrl: ControlBlock)
    ensures QuietExtension(s.log, OnConnect(s, ctrl).log)
  {
    QuietAppend(s.log, ReleaseEffects(s.camera));
  }

  lemma DisconnectIsQuiet(s: Snapshot)
    ensures QuietExtension(s.log, OnDisconnect(s).log)
  {
    QuietAppend(s.log, ReleaseEffects(s.camera));
  }

  lemma {:induction false} SizeRequestsAreQuiet(c: CameraId, sizes: seq<PreviewSize>)
    ensures forall e :: e in SizeRequests(c, sizes) ==> Quiet(e)
    decreases |sizes|
  {
    if sizes != [] {
      SizeRequestsAreQuiet(c, sizes[1..]);
    }
  }

  /** The log the posted open appends, spelled out piece by piece for the proofs below. */
  lemma PendingOpenLog(s: Snapshot, c: CameraId, accepts: PreviewSize -> bool)
    requires s.posted != [] && s.captureFormat.Some?
    ensures var n := NegotiatePreviewSize(s.captureFormat.value, accepts);
            RunPendingOpen(s, c, accepts).log
            == s.log + [NativeOpened(c, s.posted[0]), CallbacksInstalled(c)] + SizeRequests(c, n.tried)
               + (if n.applied.Some? then [PreviewDisplaySet(c, s.previewSurface), PreviewStarted(c)] else [CameraDestroyed(c)])
  {
  }

  lemma PendingOpenIsQuiet(s: Snapshot, c: CameraId, accepts: PreviewSize -> bool)
    requires s.posted != [] && s.captureFormat.Some?
    ensures QuietExtension(s.log, RunPendingOpen(s, c, accepts).log)
  {
    var n := NegotiatePreviewSize(s.captureFormat.value, accepts);
    PendingOpenLog(s, c, accepts);
    SizeRequestsAreQuiet(c, n.tried);
    var x := [NativeOpened(c, s.posted[0]), CallbacksInstalled(c)] + SizeRequests(c, n.tried)
             + (if n.applied.Some? then [PreviewDisplaySet(c, s.previewSurface), PreviewStarted(c)] else [CameraDestroyed(c)]);
    assert RunPendingOpen(s, c, accepts).log == s.log + x;
    QuietAppend(s.log, x);
  }

  /** setPreviewSize requests for `camera` are all a list of sizes produces, and nothing else. */
  lemma {:induction false} SizeRequestsOnly(camera: CameraId, sizes: seq<PreviewSize>)
    ensures Filter(SizeRequests(camera, sizes), IsSizeRequest) == SizeRequests(camera, sizes)
    ensures forall e :: e in SizeRequests(camera, sizes) ==> e.PreviewSizeRequested? && e.camera == camera
    decreases |sizes|
  {
    if sizes != [] {
      var r := SizeRequests(camera, sizes);
      SizeRequestsOnly(camera, sizes[1..]);
      assert r[0] == PreviewSizeRequested(camera, sizes[0]);
      assert r[1..] == SizeRequests(camera, sizes[1..]);
      assert forall e :: e in r ==> e == r[0] || e in r[1..];
    }
  }

  /** The only size requests of one open are the sizes it asked for. */
  lemma OpenSizeRequests(head: seq<Effect>, c: CameraId, tried: seq<PreviewSize>, tail: seq<Effect>)
    requires forall e :: e in head ==> !IsSizeRequest(e)
    requires forall e :: e in tail ==> !IsSizeRequest(e)
    ensures Filter(head + SizeRequests(c, tried) + tail, IsSizeRequest) == SizeRequests(c, tried)
  {
    var sizes := SizeRequests(c, tried);
    SizeRequestsOnly(c, tried);
    FilterAppend(head + sizes, tail, IsSizeRequest);
    FilterAppend(head, sizes, IsSizeRequest);
    FilterNone(head, IsSizeRequest);
    FilterNone(tail, IsSizeRequest);
    assert [] + sizes + [] == sizes;
  }

  /** An effect about `c` other than a size request occurs in one open exactly when it occurs in its head or tail. */
  lemma OpenMembership(head: seq<Effect>, c: CameraId, tried: seq<PreviewSize>, tail: seq<Effect>, e: Effect)
    requires !e.PreviewSizeRequested?
    ensures e in head + SizeRequests(c, tried) + tail <==> e in head || e in tail
  {
    SizeRequestsOnly(c, tried);
  }

  /** The effects one open appends for camera `c`, with `tried` sizes asked and `applied` the outcome. */
  ghost predicate OpenShape(x: seq<Effect>, c: CameraId, ctrl: ControlBlock, surface: Option<SurfaceId>,
                            tried: seq<PreviewSize>, applied: bool)
  {
    && |x| >= 4
    && x[0] == NativeOpened(c, ctrl) && x[1] == CallbacksInstalled(c)
    && Filter(x, IsSizeRequest) == SizeRequests(c, tried)
    && (CameraDestroyed(c) in x <==> !applied)
    && (PreviewStarted(c) in x <==> applied)
    && (PreviewDisplaySet(c, surface) in x <==> applied)
    && (applied ==> x[|x| - 2..] == [PreviewDisplaySet(c, surface), PreviewStarted(c)])
    && (!applied ==> x[|x| - 1] == CameraDestroyed(c))
  }

  lemma OpenHasShape(c: CameraId, ctrl: ControlBlock, surface: Option<SurfaceId>, tried: seq<PreviewSize>, applied: bool)
    requires |tried| >= 1
    ensures var tail := if applied then [PreviewDisplaySet(c, surface), PreviewStarted(c)] else [CameraDestroyed(c)];
            OpenShape([NativeOpened(c, ctrl), CallbacksInstalled(c)] + SizeRequests(c, tried) + tail, c, ctrl, surface, tried, applied)
  {
    var head := [NativeOpened(c, ctrl), CallbacksInstalled(c)];
    var tail := if applied then [PreviewDisplaySet(c, surface), PreviewStarted(c)] else [CameraDestroyed(c)];
    var x := head + SizeRequests(c, tried) + tail;
    OpenSizeRequests(head, c, tried, tail);
    OpenMembership(head, c, tried, tail, CameraDestroyed(c));
    OpenMembership(head, c, tried, tail, PreviewStarted(c));
    OpenMembership(head, c, tried, tail, PreviewDisplaySet(c, surface));
    assert x[|x| - |tail|..] == tail;
  }

  /**
   * What the posted open does to the new native camera: it is opened with the
   * posted control block and gets its callbacks first; the sizes negotiated
   * are asked of it in order and no others; a camera that rejects both sizes
   * is destroyed and never bound or previewed; an accepted one is bound to
   * the preview surface and then started, as the last two effects.
   */
  lemma PendingOpenEffects(s: Snapshot, c: CameraId, accepts: PreviewSize -> bool)
    requires s.posted != [] && s.captureFormat.Some?
    ensures var r := RunPendingOpen(s, c, accepts);
            var n := NegotiatePreviewSize(s.captureFormat.value, accepts);
            && |r.log| >= |s.log| && r.log[..|s.log|] == s.log
            && OpenShape(r.log[|s.log|..], c, s.posted[0], s.previewSurface, n.tried, n.applied.Some?)
  {
    var l := RunPendingOpen(s, c, accepts).log;
    var n := NegotiatePreviewSize(s.captureFormat.value, accepts);
    var tail := if n.applied.Some? then [PreviewDisplaySet(c, s.previewSurface), PreviewStarted(c)] else [CameraDestroyed(c)];
    var x := [NativeOpened(c, s.posted[0]), CallbacksInstalled(c)] + SizeRequests(c, n.tried) + tail;
    PendingOpenLog(s, c, accepts);
    assert l == s.log + x;
    assert l[|s.log|..] == x;
    OpenHasShape(c, s.posted[0], s.previewSurface, n.tried, n.applied.Some?);
  }

  /** The posted open keeps the teardown invariant: it adds no teardown effect and keeps both flags. */
  lemma PendingOpenKeepsInv(s: Snapshot, c: CameraId, accepts: PreviewSize -> bool)
    requires Inv(s) && s.posted != [] && s.captureFormat.Some?
    ensures Inv(RunPendingOpen(s, c, accepts))
  {
    PendingOpenIsQuiet(s, c, accepts);
    QuietStepKeepsInv(s, RunPendingOpen(s, c, accepts));
  }

  // ---------------------------------------------------------------- handle

  /** releaseCamera twice is releaseCamera once: the second call sees no camera. */
  lemma ReleaseCameraIdempotent(s: Snapshot)
    ensures ReleaseCamera(ReleaseCamera(s)) == ReleaseCamera(s)
  {
  }

  /**
   * Release before acquire: when the posted open of a connect runs next, the
   * camera held at the connect was released (callbacks cleared, closed,
   * destroyed) before the new one is opened.
   */
  lemma ConnectReleasesBeforeOpen(s: Snapshot, ctrl: ControlBlock, newCamera: CameraId, accepts: PreviewSize -> bool)
    requires s.captureFormat.Some? && s.posted == [] && s.camera.Some?
    ensures var r := RunPendingOpen(OnConnect(s, ctrl), newCamera, accepts);
            var held := s.camera.value;
            && r.log[..|s.log| + 4] == s.log + [CallbacksCleared(held), CameraClosed(held), CameraDestroyed(held), NativeOpened(newCamera, ctrl)]
            && r.posted == []
  {
    var c := OnConnect(s, ctrl);
    var r := RunPendingOpen(c, newCamera, accepts);
    PendingOpenLog(c, newCamera, accepts);
    assert r.log[..|s.log| + 4] == r.log[..|c.log|] + [r.log[|c.log|]];
  }

  /**
   * The store at the end of the posted open has no guard. A task that runs
   * after stop leaves a STOPPED session holding a started camera, and a
   * further stop does not release it.
   */
  lemma OpenAfterStopStoresCamera(s: Snapshot, newCamera: CameraId, accepts: PreviewSize -> bool)
    requires Inv(s) && s.captureFormat.Some? && s.posted != []
    requires accepts(RequestedPreviewSize(s.captureFormat.value))
    ensures var r := RunPendingOpen(Finalize(s), newCamera, accepts);
            r.stopped && r.state == Stopped && r.camera == Some(newCamera)
            && Finalize(r) == r
  {
  }

  /**
   * Two connects in a row post two opens; the second open overwrites the
   * handle the first one stored, and that first camera is never closed.
   */
  lemma SecondQueuedOpenOverwrites(s: Snapshot, ctrl1: ControlBlock, ctrl2: ControlBlock,
                                   cam1: CameraId, cam2: CameraId, accepts: PreviewSize -> bool)
    requires s.captureFormat.Some? && s.posted == [] && s.camera == None
    requires accepts(RequestedPreviewSize(s.captureFormat.value))
    requires cam1 != cam2 && CameraClosed(cam1) !in s.log
    ensures var r := RunPendingOpen(RunPendingOpen(OnConnect(OnConnect(s, ctrl1), ctrl2), cam1, accepts), cam2, accepts);
            r.camera == Some(cam2) && r.posted == []
            && NativeOpened(cam1, ctrl1) in r.log && CameraClosed(cam1) !in r.log
  {
    var s2 := OnConnect(OnConnect(s, ctrl1), ctrl2);
    assert s2.posted == [ctrl1, ctrl2] && s2.log == s.log;
    var size := RequestedPreviewSize(s.captureFormat.value);
    var s3 := RunPendingOpen(s2, cam1, accepts);
    assert s3.log == s.log + [NativeOpened(cam1, ctrl1), CallbacksInstalled(cam1), PreviewSizeRequested(cam1, size),
                              PreviewDisplaySet(cam1, s.previewSurface), PreviewStarted(cam1)];
    var s4 := RunPendingOpen(s3, cam2, accepts);
    assert s4.log == s3.log + [NativeOpened(cam2, ctrl2), CallbacksInstalled(cam2), PreviewSizeRequested(cam2, size),
                               PreviewDisplaySet(cam2, s.previewSurface), PreviewStarted(cam2)];
  }

  // ---------------------------------------------------------------- stop

  /** Every stop after the first, on any thread, changes nothing and emits nothing. */
  lemma StopIdempotent(s: Snapshot, onCameraThread: bool)
    ensures Stop(Stop(s, true).next, onCameraThread).next == Stop(s, true).next
    ensures Finalize(Finalize(s)) == Finalize(s)
  {
  }

  /** stopInternal on a session not yet STOPPED notifies onCameraClosed once and forwards no frame. */
  lemma StopInternalTeardown(s: Snapshot)
    requires s.state != Stopped
    ensures Filter(StopInternal(s).log, IsTeardown) == Filter(s.log, IsTeardown) + [CameraClosedNotified]
    ensures Filter(StopInternal(s).log, IsFrame) == Filter(s.log, IsFrame)
  {
    var t := StopInternal(s);
    var mid := s.log + [ListeningStopped] + ReleaseEffects(s.camera);
    QuietAppend(s.log, [ListeningStopped] + ReleaseEffects(s.camera));
    QuietFilters(s.log, mid);
    FilterOne(mid, CameraClosedNotified, IsTeardown);
    FilterOne(mid, CameraClosedNotified, IsFrame);
    QuietAppend(mid + [CameraClosedNotified], SurfaceReleaseEffects(s.previewSurface));
    QuietFilters(mid + [CameraClosedNotified], t.log);
  }

  /** From a session not yet stopped, finalize emits exactly one teardown round and forwards no frame. */
  lemma FinalizeTeardown(s: Snapshot)
    requires !s.stopped && s.state != Stopped
    ensures Filter(Finalize(s).log, IsTeardown) == Filter(s.log, IsTeardown) + [CameraClosedNotified, MonitorUnregistered, MonitorDestroyed]
    ensures Filter(Finalize(s).log, IsFrame) == Filter(s.log, IsFrame)
  {
    StopInternalTeardown(s);
    MonitorTeardown(StopInternal(s).log);
  }

  /** Unregistering then destroying the monitor adds those two to the teardown round and no frame. */
  lemma MonitorTeardown(l: seq<Effect>)
    ensures Filter(l + [MonitorUnregistered, MonitorDestroyed], IsTeardown) == Filter(l, IsTeardown) + [MonitorUnregistered, MonitorDestroyed]
    ensures Filter(l + [MonitorUnregistered, MonitorDestroyed], IsFrame) == Filter(l, IsFrame)
  {
    assert l + [MonitorUnregistered, MonitorDestroyed] == l + [MonitorUnregistered] + [MonitorDestroyed];
    FilterOne(l, MonitorUnregistered, IsTeardown);
    FilterOne(l + [MonitorUnregistered], MonitorDestroyed, IsTeardown);
    FilterOne(l, MonitorUnregistered, IsFrame);
    FilterOne(l + [MonitorUnregistered], MonitorDestroyed, IsFrame);
  }

  /** Finalize never forwards a frame, whatever the state. */
  lemma FinalizeForwardsNothing(s: Snapshot)
    ensures Filter(Finalize(s).log, IsFrame) == Filter(s.log, IsFrame)
  {
    if !s.stopped {
      if s.state != Stopped {
        FinalizeTeardown(s);
      } else {
        FilterAppend(s.log, [MonitorUnregistered, MonitorDestroyed], IsFrame);
        FilterNone([MonitorUnregistered, MonitorDestroyed], IsFrame);
      }
    }
  }

  // ---------------------------------------------------------------- invariant

  /** A step that adds only quiet effects and keeps both flags keeps the invariant. */
  lemma QuietStepKeepsInv(s: Snapshot, r: Snapshot)
    requires Inv(s) && QuietExtension(s.log, r.log)
    requires r.state == s.state && r.stopped == s.stopped
    ensures Inv(r)
  {
    QuietFilters(s.log, r.log);
  }

  /** Every input keeps "STOPPED exactly when stopped, one teardown round exactly when stopped". */
  lemma StepPreservesInv(s: Snapshot, i: Input)
    requires Inv(s) && s.captureFormat.Some?
    ensures Inv(Step(s, i))
  {
    match i
    case Connect(ctrl) =>
      ConnectIsQuiet(s, ctrl);
      QuietStepKeepsInv(s, Step(s, i));
    case PendingOpen(c, accepts) =>
      if s.posted != [] {
        PendingOpenKeepsInv(s, c, accepts);
      }
    case Disconnect =>
      DisconnectIsQuiet(s);
      QuietStepKeepsInv(s, Step(s, i));
    case Dettach =>
    case Cancel =>
    case FrameArrived(frame, onThread) =>
      FrameKeepsInv(s, frame, onThread);
    case StopCalled(onThread) =>
      if onThread { FinalizeKeepsInv(s); }
    case Finalized =>
      FinalizeKeepsInv(s);
  }

  lemma FrameKeepsInv(s: Snapshot, frame: VideoFrame, onThread: bool)
    requires Inv(s)
    ensures Inv(OnFrame(s, frame, onThread).next)
  {
    FilterOne(s.log, FrameForwarded(frame), IsTeardown);
  }

  lemma FinalizeKeepsInv(s: Snapshot)
    requires Inv(s)
    ensures Inv(Finalize(s))
  {
    if !s.stopped { FinalizeTeardown(s); }
  }

  lemma {:induction false} RunPreservesInv(s: Snapshot, inputs: seq<Input>)
    requires Inv(s) && s.captureFormat.Some?
    ensures Inv(Run(s, inputs))
    decreases |inputs|
  {
    if inputs != [] {
      StepPreservesInv(s, inputs[0]);
      RunPreservesInv(Step(s, inputs[0]), inputs[1..]);
    }
  }

  /** A freshly started session satisfies the invariant, whichever call in start threw. */
  lemma StartEstablishesInv(width: int, height: int, framerate: int,
                            newSurface: Option<SurfaceId>, devices: seq<DeviceId>, fault: StartFault)
    ensures var r := Start(Initial(width, height, framerate), true, newSurface, devices, fault).next;
            Inv(r) && !r.stopped && r.captureFormat.Some?
  {
    var s := Initial(width, height, framerate);
    StartLog(s, newSurface, devices, fault);
    var r := Start(s, true, newSurface, devices, fault).next;
    assert forall e :: e in r.log ==> !IsTeardown(e);
    FilterNone(r.log, IsTeardown);
  }

  /**
   * Teardown at most once, for any history: whatever arrives after start,
   * onCameraClosed, the monitor's unregister and its destroy have happened
   * either not at all or exactly once each, in that order.
   */
  lemma TeardownAtMostOnce(width: int, height: int, framerate: int,
                           newSurface: Option<SurfaceId>, devices: seq<DeviceId>, fault: StartFault,
                           inputs: seq<Input>)
    ensures var s := Start(Initial(width, height, framerate), true, newSurface, devices, fault).next;
            var r := Run(s, inputs);
            Filter(r.log, IsTeardown) == [] || Filter(r.log, IsTeardown) == [CameraClosedNotified, MonitorUnregistered, MonitorDestroyed]
  {
    StartEstablishesInv(width, height, framerate, newSurface, devices, fault);
    var s := Start(Initial(width, height, framerate), true, newSurface, devices, fault).next;
    RunPreservesInv(s, inputs);
  }

  // ---------------------------------------------------------------- frames

  /** One input forwards a frame exactly when it is a frame, on the camera thread, while RUNNING. */
  lemma StepForwardsOnlyWhileRunning(s: Snapshot, i: Input)
    requires s.captureFormat.Some?
    ensures Filter(Step(s, i).log, IsFrame)
         == Filter(s.log, IsFrame)
            + (if i.FrameArrived? && i.onFrameThread && s.state == Running then [FrameForwarded(i.frame)] else [])
  {
    match i
    case Connect(ctrl) =>
      ConnectIsQuiet(s, ctrl);
      QuietFilters(s.log, Step(s, i).log);
    case PendingOpen(c, accepts) =>
      if s.posted != [] { PendingOpenForwardsNothing(s, c, accepts); }
    case Disconnect =>
      DisconnectIsQuiet(s);
      QuietFilters(s.log, Step(s, i).log);
    case Dettach =>
    case Cancel =>
    case FrameArrived(frame, onThread) =>
      FrameForwardedOnce(s, frame, onThread);
    case StopCalled(onThread) =>
      FinalizeForwardsNothing(s);
    case Finalized =>
      FinalizeForwardsNothing(s);
  }

  lemma PendingOpenForwardsNothing(s: Snapshot, c: CameraId, accepts: PreviewSize -> bool)
    requires s.posted != [] && s.captureFormat.Some?
    ensures Filter(RunPendingOpen(s, c, accepts).log, IsFrame) == Filter(s.log, IsFrame)
  {
    PendingOpenIsQuiet(s, c, accepts);
    QuietFilters(s.log, RunPendingOpen(s, c, accepts).log);
  }

  lemma FrameForwardedOnce(s: Snapshot, frame: VideoFrame, onThread: bool)
    ensures Filter(OnFrame(s, frame, onThread).next.log, IsFrame)
         == Filter(s.log, IsFrame) + (if onThread && s.state == Running then [FrameForwarded(frame)] else [])
  {
    FilterOne(s.log, FrameForwarded(frame), IsFrame);
  }

  /**
   * No frame after stop: once STOPPED, a session stays STOPPED and forwards
   * no further frame, whatever arrives.
   */
  lemma {:induction false} NoFrameAfterStop(s: Snapshot, inputs: seq<Input>)
    requires s.captureFormat.Some? && s.state == Stopped
    ensures Run(s, inputs).state == Stopped
    ensures Filter(Run(s, inputs).log, IsFrame) == Filter(s.log, IsFrame)
    decreases |inputs|
  {
    if inputs != [] {
      StepForwardsOnlyWhileRunning(s, inputs[0]);
      assert Filter(Step(s, inputs[0]).log, IsFrame) == Filter(s.log, IsFrame) + [];
      NoFrameAfterStop(Step(s, inputs[0]), inputs[1..]);
    }
  }

  /** Once the first frame has been reported the flag stays set for the rest of the session. */
  lemma {:induction false} FirstFrameStaysReported(s: Snapshot, inputs: seq<Input>)
    requires s.captureFormat.Some? && s.firstFrameReported
    ensures Run(s, inputs).firstFrameReported
    decreases |inputs|
  {
    if inputs != [] {
      FirstFrameStaysReported(Step(s, inputs[0]), inputs[1..]);
    }
  }

  /** The flag is set by the first frame forwarded, and a dropped frame leaves it alone. */
  lemma FirstFrameSetByRunningFrame(s: Snapshot, frame: VideoFrame)
    requires s.state == Running && !s.firstFrameReported
    ensures OnFrame(s, frame, true).next.firstFrameReported
    ensures !OnFrame(s.(state := Stopped), frame, true).next.firstFrameReported
  {
  }

  // ---------------------------------------------------------------- start

  predicate IsPermissionRequest(e: Effect) { e.PermissionRequested? }

  predicate IsRegistration(e: Effect) { e == MonitorRegistered }

  /**
   * How far start's try block gets before `fault` throws: 0 = nothing done,
   * 1 = texture size set, 2 = surface made and state RUNNING, 3 = listening,
   * 4 = monitor registered, 5 = permission asked (if there is a device).
   */
  function CallsCompleted(fault: StartFault): nat
  {
    match fault
    case TextureSizeFault => 0
    case SurfaceFault => 1
    case ListenFault => 2
    case RegisterFault => 3
    case DeviceListFault => 4
    case PermissionFault => 4
    case NoFault => 5
  }

  /** An independent listing of the try block's effects, one call at a time. */
  function TryBlockEffects(f: CaptureFormat, newSurface: Option<SurfaceId>, devices: seq<DeviceId>, fault: StartFault): seq<Effect>
  {
    var k := CallsCompleted(fault);
    (if k >= 1 then [TextureSizeSet(f.width, f.height)] else [])
    + (if k >= 2 && newSurface.Some? then [PreviewSurfaceCreated(newSurface.value)] else [])
    + (if k >= 3 then [ListeningStarted] else [])
    + (if k >= 4 then [MonitorRegistered] else [])
    + (if k >= 5 && |devices| > 0 then [PermissionRequested(devices[0])] else [])
  }

  /** The try block appends exactly the listed effects for its fault. */
  lemma StartBodyLog(s: Snapshot, newSurface: Option<SurfaceId>, devices: seq<DeviceId>, fault: StartFault)
    requires s.captureFormat.Some?
    ensures StartBody(s, newSurface, devices, fault).log
         == s.log + TryBlockEffects(s.captureFormat.value, newSurface, devices, fault)
  {
    if CallsCompleted(fault) < 4 {
      EarlyThrowLog(s, newSurface, devices, fault);
    } else {
      LateThrowLog(s, newSurface, devices, fault);
    }
  }

  lemma EarlyThrowLog(s: Snapshot, newSurface: Option<SurfaceId>, devices: seq<DeviceId>, fault: StartFault)
    requires s.captureFormat.Some? && CallsCompleted(fault) < 4
    ensures StartBody(s, newSurface, devices, fault).log
         == s.log + TryBlockEffects(s.captureFormat.value, newSurface, devices, fault)
  {
    var f := s.captureFormat.value;
    var surface := if newSurface.Some? then [PreviewSurfaceCreated(newSurface.value)] else [];
    if fault == ListenFault {
      assert TryBlockEffects(f, newSurface, devices, fault) == [TextureSizeSet(f.width, f.height)] + surface;
    } else if fault == RegisterFault {
      assert TryBlockEffects(f, newSurface, devices, fault) == [TextureSizeSet(f.width, f.height)] + surface + [ListeningStarted];
    }
  }

  lemma LateThrowLog(s: Snapshot, newSurface: Option<SurfaceId>, devices: seq<DeviceId>, fault: StartFault)
    requires s.captureFormat.Some? && CallsCompleted(fault) >= 4
    ensures StartBody(s, newSurface, devices, fault).log
         == s.log + TryBlockEffects(s.captureFormat.value, newSurface, devices, fault)
  {
    var f := s.captureFormat.value;
    var surface := if newSurface.Some? then [PreviewSurfaceCreated(newSurface.value)] else [];
    var registered := [TextureSizeSet(f.width, f.height)] + surface + [ListeningStarted] + [MonitorRegistered];
    if fault == NoFault {
      CompletedLog(s, newSurface, devices);
    } else {
      assert TryBlockEffects(f, newSurface, devices, fault) == registered + [];
    }
  }

  lemma CompletedLog(s: Snapshot, newSurface: Option<SurfaceId>, devices: seq<DeviceId>)
    requires s.captureFormat.Some?
    ensures StartBody(s, newSurface, devices, NoFault).log
         == s.log + TryBlockEffects(s.captureFormat.value, newSurface, devices, NoFault)
  {
    var f := s.captureFormat.value;
    var surface := if newSurface.Some? then [PreviewSurfaceCreated(newSurface.value)] else [];
    var registered := [TextureSizeSet(f.width, f.height)] + surface + [ListeningStarted] + [MonitorRegistered];
    var permission := if |devices| > 0 then [PermissionRequested(devices[0])] else [];
    assert TryBlockEffects(f, newSurface, devices, NoFault) == registered + permission;
  }

  /** Start emits onCameraOpening first, then the try block's effects up to the throw, then callback.onDone. */
  lemma StartLog(s: Snapshot, newSurface: Option<SurfaceId>, devices: seq<DeviceId>, fault: StartFault)
    ensures Start(s, true, newSurface, devices, fault).next.log
         == s.log + [CameraOpening]
            + TryBlockEffects(FindCaptureFormat(s.width, s.height, s.framerate), newSurface, devices, fault)
            + [SessionDone]
  {
    var opening := s.(log := s.log + [CameraOpening], captureFormat := Some(FindCaptureFormat(s.width, s.height, s.framerate)));
    StartBodyLog(opening, newSurface, devices, fault);
  }

  /** The filtered try block, piece by piece. */
  lemma TryBlockFilter(f: CaptureFormat, newSurface: Option<SurfaceId>, devices: seq<DeviceId>, fault: StartFault, keep: Effect -> bool)
    ensures var k := CallsCompleted(fault);
            (Filter(TryBlockEffects(f, newSurface, devices, fault), keep)
             == Filter(if k >= 1 then [TextureSizeSet(f.width, f.height)] else [], keep)
                + Filter(if k >= 2 && newSurface.Some? then [PreviewSurfaceCreated(newSurface.value)] else [], keep)
                + Filter(if k >= 3 then [ListeningStarted] else [], keep)
                + Filter(if k >= 4 then [MonitorRegistered] else [], keep)
                + Filter(if k >= 5 && |devices| > 0 then [PermissionRequested(devices[0])] else [], keep))
  {
    var k := CallsCompleted(fault);
    var a := if k >= 1 then [TextureSizeSet(f.width, f.height)] else [];
    var b := if k >= 2 && newSurface.Some? then [PreviewSurfaceCreated(newSurface.value)] else [];
    var c := if k >= 3 then [ListeningStarted] else [];
    var d := if k >= 4 then [MonitorRegistered] else [];
    var e := if k >= 5 && |devices| > 0 then [PermissionRequested(devices[0])] else [];
    FilterAppend(a + b + c + d, e, keep);
    FilterAppend(a + b + c, d, keep);
    FilterAppend(a + b, c, keep);
    FilterAppend(a, b, keep);
  }

  lemma FilterStart(log: seq<Effect>, body: seq<Effect>, keep: Effect -> bool)
    requires !keep(CameraOpening)
    ensures Filter(log + [CameraOpening] + body + [SessionDone], keep)
         == Filter(log, keep) + Filter(body, keep) + (if keep(SessionDone) then [SessionDone] else [])
  {
    FilterOne(log + [CameraOpening] + body, SessionDone, keep);
    FilterAppend(log + [CameraOpening], body, keep);
    FilterOne(log, CameraOpening, keep);
  }

  /** The try block of start never calls callback.onDone: whatever throws, onDone comes once, after it. */
  lemma StartCallsDoneOnce(s: Snapshot, newSurface: Option<SurfaceId>, devices: seq<DeviceId>, fault: StartFault)
    ensures Filter(Start(s, true, newSurface, devices, fault).next.log, IsDone) == Filter(s.log, IsDone) + [SessionDone]
  {
    var f := FindCaptureFormat(s.width, s.height, s.framerate);
    StartLog(s, newSurface, devices, fault);
    var body := TryBlockEffects(f, newSurface, devices, fault);
    assert forall e :: e in body ==> !IsDone(e);
    FilterNone(body, IsDone);
    FilterStart(s.log, body, IsDone);
  }

  lemma TryBlockPermissions(f: CaptureFormat, newSurface: Option<SurfaceId>, devices: seq<DeviceId>, fault: StartFault)
    ensures Filter(TryBlockEffects(f, newSurface, devices, fault), IsPermissionRequest)
         == if fault == NoFault && |devices| > 0 then [PermissionRequested(devices[0])] else []
  {
    var k := CallsCompleted(fault);
    TryBlockFilter(f, newSurface, devices, fault, IsPermissionRequest);
    FilterSmall(if k >= 1 then [TextureSizeSet(f.width, f.height)] else [], IsPermissionRequest);
    FilterSmall(if k >= 2 && newSurface.Some? then [PreviewSurfaceCreated(newSurface.value)] else [], IsPermissionRequest);
    FilterSmall(if k >= 3 then [ListeningStarted] else [], IsPermissionRequest);
    FilterSmall(if k >= 4 then [MonitorRegistered] else [], IsPermissionRequest);
    FilterSmall(if k >= 5 && |devices| > 0 then [PermissionRequested(devices[0])] else [], IsPermissionRequest);
  }

  lemma TryBlockRegistrations(f: CaptureFormat, newSurface: Option<SurfaceId>, devices: seq<DeviceId>, fault: StartFault)
    ensures Filter(TryBlockEffects(f, newSurface, devices, fault), IsRegistration)
         == if CallsCompleted(fault) >= 4 then [MonitorRegistered] else []
  {
    var k := CallsCompleted(fault);
    TryBlockFilter(f, newSurface, devices, fault, IsRegistration);
    FilterSmall(if k >= 1 then [TextureSizeSet(f.width, f.height)] else [], IsRegistration);
    FilterSmall(if k >= 2 && newSurface.Some? then [PreviewSurfaceCreated(newSurface.value)] else [], IsRegistration);
    FilterSmall(if k >= 3 then [ListeningStarted] else [], IsRegistration);
    FilterSmall(if k >= 4 then [MonitorRegistered] else [], IsRegistration);
    FilterSmall(if k >= 5 && |devices| > 0 then [PermissionRequested(devices[0])] else [], IsRegistration);
  }

  /**
   * Permission only for the first device: start asks for devices[0] exactly
   * when nothing in the try block threw and the list is non-empty, and asks
   * for no other device.
   */
  lemma StartRequestsFirstDevice(s: Snapshot, newSurface: Option<SurfaceId>, devices: seq<DeviceId>, fault: StartFault)
    ensures Filter(Start(s, true, newSurface, devices, fault).next.log, IsPermissionRequest)
         == Filter(s.log, IsPermissionRequest)
            + (if fault == NoFault && |devices| > 0 then [PermissionRequested(devices[0])] else [])
  {
    var f := FindCaptureFormat(s.width, s.height, s.framerate);
    StartLog(s, newSurface, devices, fault);
    TryBlockPermissions(f, newSurface, devices, fault);
    FilterStart(s.log, TryBlockEffects(f, newSurface, devices, fault), IsPermissionRequest);
  }

  /**
   * The monitor is registered once, after onCameraOpening, exactly when the
   * try block gets past startListening; a throw before that leaves it
   * unregistered.
   */
  lemma StartRegistersMonitor(s: Snapshot, newSurface: Option<SurfaceId>, devices: seq<DeviceId>, fault: StartFault)
    ensures Filter(Start(s, true, newSurface, devices, fault).next.log, IsRegistration)
         == Filter(s.log, IsRegistration)
            + (if fault in {NoFault, DeviceListFault, PermissionFault} then [MonitorRegistered] else [])
  {
    var f := FindCaptureFormat(s.width, s.height, s.framerate);
    StartLog(s, newSurface, devices, fault);
    TryBlockRegistrations(f, newSurface, devices, fault);
    FilterStart(s.log, TryBlockEffects(f, newSurface, devices, fault), IsRegistration);
  }

  // ---------------------------------------------------------------- native cameras

  /** `e` is a call on the native camera `c`. */
  predicate About(e: Effect, c: CameraId)
  {
    && (|| e.NativeOpened? || e.CallbacksInstalled? || e.PreviewSizeRequested? || e.PreviewDisplaySet?
        || e.PreviewStarted? || e.CallbacksCleared? || e.CameraClosed? || e.CameraDestroyed?)
    && e.camera == c
  }

  /** `c` is a new native camera: not held, and nothing in the log was done to it. */
  ghost predicate Unused(s: Snapshot, c: CameraId)
  {
    s.camera != Some(c) && forall e :: e in s.log ==> !About(e, c)
  }

  /** Every posted open that runs along `inputs` is handed a new native camera. */
  ghost predicate FreshOpens(s: Snapshot, inputs: seq<Input>)
    requires s.captureFormat.Some?
    decreases |inputs|
  {
    inputs != [] ==>
      && (inputs[0].PendingOpen? && s.posted != [] ==> Unused(s, inputs[0].newCamera))
      && FreshOpens(Step(s, inputs[0]), inputs[1..])
  }

  /** How often `c` has been closed, and destroyed, according to `log`. */
  function Closes(log: seq<Effect>, c: CameraId): nat { multiset(log)[CameraClosed(c)] }

  function Destroys(log: seq<Effect>, c: CameraId): nat { multiset(log)[CameraDestroyed(c)] }

  /** No native camera in `log` was closed or destroyed twice, and `camera`, if held, not at all. */
  ghost predicate OnceLog(log: seq<Effect>, camera: Option<CameraId>)
  {
    && (forall c :: Closes(log, c) <= 1)
    && (forall c :: Destroys(log, c) <= 1)
    && (camera.Some? ==> Closes(log, camera.value) == 0 && Destroys(log, camera.value) == 0)
  }

  ghost predicate ReleasedOnce(s: Snapshot)
  {
    OnceLog(s.log, s.camera)
  }

  predicate Releases(e: Effect) { e.CameraClosed? || e.CameraDestroyed? }

  lemma CountKept(a: seq<Effect>, x: seq<Effect>, e: Effect)
    requires e !in x
    ensures multiset(a + x)[e] == multiset(a)[e]
  {
    assert multiset(a + x) == multiset(a) + multiset(x);
    assert multiset(x)[e] == 0;
  }

  lemma AppendCount(a: seq<Effect>, e: Effect, k: Effect)
    ensures multiset(a + [e])[k] == multiset(a)[k] + (if k == e then 1 else 0)
  {
    assert multiset(a + [e]) == multiset(a) + multiset([e]);
  }

  /** Appending effects that close or destroy nothing keeps OnceLog for the same handle. */
  lemma KeepOnce(a: seq<Effect>, x: seq<Effect>, camera: Option<CameraId>)
    requires OnceLog(a, camera)
    requires forall e :: e in x ==> !Releases(e)
    ensures OnceLog(a + x, camera)
  {
    forall c ensures Closes(a + x, c) == Closes(a, c) && Destroys(a + x, c) == Destroys(a, c) {
      CountKept(a, x, CameraClosed(c));
      CountKept(a, x, CameraDestroyed(c));
    }
  }

  /** The counts releasing `h` adds, camera by camera. */
  lemma ReleaseCounts(a: seq<Effect>, h: CameraId, c: CameraId)
    ensures var l := a + [CallbacksCleared(h), CameraClosed(h), CameraDestroyed(h)];
            && Closes(l, c) == Closes(a, c) + (if c == h then 1 else 0)
            && Destroys(l, c) == Destroys(a, c) + (if c == h then 1 else 0)
  {
    var x := [CallbacksCleared(h), CameraClosed(h), CameraDestroyed(h)];
    assert multiset(a + x) == multiset(a) + multiset(x);
    assert multiset(x) == multiset{CallbacksCleared(h), CameraClosed(h), CameraDestroyed(h)};
  }

  /** Clearing, closing and destroying the held camera counts it once and leaves no handle. */
  lemma ReleaseOnce(a: seq<Effect>, h: CameraId)
    requires OnceLog(a, Some(h))
    ensures OnceLog(a + [CallbacksCleared(h), CameraClosed(h), CameraDestroyed(h)], None)
  {
    var l := a + [CallbacksCleared(h), CameraClosed(h), CameraDestroyed(h)];
    forall c ensures Closes(l, c) <= 1 && Destroys(l, c) <= 1 {
      assert Closes(a, c) <= 1 && Destroys(a, c) <= 1;
      ReleaseCounts(a, h, c);
    }
  }

  /** Storing a camera never closed or destroyed, after effects that release nothing. */
  lemma StoreOnce(a: seq<Effect>, x: seq<Effect>, old_: Option<CameraId>, c: CameraId)
    requires OnceLog(a, old_) && Closes(a, c) == 0 && Destroys(a, c) == 0
    requires forall e :: e in x ==> !Releases(e)
    ensures OnceLog(a + x, Some(c))
  {
    assert OnceLog(a, None);
    KeepOnce(a, x, None);
    CountKept(a, x, CameraClosed(c));
    CountKept(a, x, CameraDestroyed(c));
    assert Closes(a + x, c) == 0 && Destroys(a + x, c) == 0;
  }

  /** Destroying a camera never destroyed and not held, after effects that release nothing. */
  lemma DestroyOnce(a: seq<Effect>, x: seq<Effect>, camera: Option<CameraId>, c: CameraId)
    requires OnceLog(a, camera) && Destroys(a, c) == 0 && camera != Some(c)
    requires forall e :: e in x ==> !Releases(e)
    ensures OnceLog(a + x + [CameraDestroyed(c)], camera)
  {
    KeepOnce(a, x, camera);
    CountKept(a, x, CameraDestroyed(c));
    forall k ensures Closes(a + x + [CameraDestroyed(c)], k) == Closes(a + x, k)
                  && Destroys(a + x + [CameraDestroyed(c)], k) <= 1 {
      assert Destroys(a + x, k) <= 1;
      AppendCount(a + x, CameraDestroyed(c), CameraClosed(k));
      AppendCount(a + x, CameraDestroyed(c), CameraDestroyed(k));
    }
    if camera.Some? {
      AppendCount(a + x, CameraDestroyed(c), CameraDestroyed(camera.value));
    }
  }

  /** A camera that no effect of the log is about has not been closed or destroyed. */
  lemma UnusedNotReleased(s: Snapshot, c: CameraId)
    requires Unused(s, c)
    ensures Closes(s.log, c) == 0 && Destroys(s.log, c) == 0
  {
    if CameraClosed(c) in s.log { assert About(CameraClosed(c), c); }
    if CameraDestroyed(c) in s.log { assert About(CameraDestroyed(c), c); }
  }

  /** releaseCamera closes and destroys the held camera, for the first time, and forgets it. */
  lemma ReleaseKeepsOnce(s: Snapshot)
    requires ReleasedOnce(s)
    ensures ReleasedOnce(ReleaseCamera(s))
  {
    if s.camera.Some? {
      ReleaseOnce(s.log, s.camera.value);
    }
  }

  /** The posted open handed a new camera destroys at most that camera, and stores it only undestroyed. */
  lemma PendingOpenKeepsOnce(s: Snapshot, c: CameraId, accepts: PreviewSize -> bool)
    requires ReleasedOnce(s) && s.posted != [] && s.captureFormat.Some? && Unused(s, c)
    ensures ReleasedOnce(RunPendingOpen(s, c, accepts))
  {
    var t := RunPendingOpen(s, c, accepts);
    var n := NegotiatePreviewSize(s.captureFormat.value, accepts);
    var x := [NativeOpened(c, s.posted[0]), CallbacksInstalled(c)] + SizeRequests(c, n.tried);
    PendingOpenLog(s, c, accepts);
    SizeRequestsOnly(c, n.tried);
    UnusedNotReleased(s, c);
    assert forall e :: e in x ==> !Releases(e);
    if n.applied.Some? {
      var y := x + [PreviewDisplaySet(c, s.previewSurface), PreviewStarted(c)];
      assert t.log == s.log + y;
      StoreOnce(s.log, y, s.camera, c);
    } else {
      assert t.log == s.log + x + [CameraDestroyed(c)];
      DestroyOnce(s.log, x, s.camera, c);
    }
  }

  /** stopInternal releases the camera at most once and otherwise closes and destroys nothing. */
  lemma StopInternalKeepsOnce(s: Snapshot)
    requires ReleasedOnce(s)
    ensures ReleasedOnce(StopInternal(s))
  {
    var t := StopInternal(s);
    var surface := SurfaceReleaseEffects(s.previewSurface);
    if s.state != Stopped {
      var a := s.log + [ListeningStopped];
      KeepOnce(s.log, [ListeningStopped], s.camera);
      if s.camera.Some? {
        ReleaseOnce(a, s.camera.value);
      }
      KeepOnce(a + ReleaseEffects(s.camera), [CameraClosedNotified] + surface, None);
      assert t.log == a + ReleaseEffects(s.camera) + ([CameraClosedNotified] + surface);
    } else {
      KeepOnce(s.log, surface, s.camera);
    }
  }

  lemma FinalizeKeepsOnce(s: Snapshot)
    requires ReleasedOnce(s)
    ensures ReleasedOnce(Finalize(s))
  {
    if !s.stopped {
      var t := if s.state != Stopped then StopInternal(s) else s;
      if s.state != Stopped { StopInternalKeepsOnce(s); }
      KeepOnce(t.log, [MonitorUnregistered, MonitorDestroyed], t.camera);
    }
  }

  /** Every input keeps ReleasedOnce, provided a posted open that runs is handed a new camera. */
  lemma StepKeepsOnce(s: Snapshot, i: Input)
    requires ReleasedOnce(s) && s.captureFormat.Some?
    requires i.PendingOpen? && s.posted != [] ==> Unused(s, i.newCamera)
    ensures ReleasedOnce(Step(s, i))
  {
    match i
    case Connect(ctrl) => ReleaseKeepsOnce(s);
    case PendingOpen(c, accepts) =>
      if s.posted != [] { PendingOpenKeepsOnce(s, c, accepts); }
    case Disconnect => ReleaseKeepsOnce(s);
    case Dettach =>
    case Cancel =>
    case FrameArrived(frame, onThread) =>
      if onThread && s.state == Running { KeepOnce(s.log, [FrameForwarded(frame)], s.camera); }
    case StopCalled(onThread) =>
      if onThread { FinalizeKeepsOnce(s); }
    case Finalized => FinalizeKeepsOnce(s);
  }

  lemma {:induction false} RunKeepsOnce(s: Snapshot, inputs: seq<Input>)
    requires ReleasedOnce(s) && s.captureFormat.Some? && FreshOpens(s, inputs)
    ensures ReleasedOnce(Run(s, inputs))
    decreases |inputs|
  {
    if inputs != [] {
      StepKeepsOnce(s, inputs[0]);
      RunKeepsOnce(Step(s, inputs[0]), inputs[1..]);
    }
  }

  lemma TryBlockReleasesNothing(f: CaptureFormat, newSurface: Option<SurfaceId>, devices: seq<DeviceId>, fault: StartFault)
    ensures forall e :: e in TryBlockEffects(f, newSurface, devices, fault) ==> !Releases(e)
  {
  }

  /** A freshly started session holds no camera and has closed and destroyed nothing. */
  lemma StartReleasesNothing(width: int, height: int, framerate: int,
                             newSurface: Option<SurfaceId>, devices: seq<DeviceId>, fault: StartFault)
    ensures ReleasedOnce(Start(Initial(width, height, framerate), true, newSurface, devices, fault).next)
  {
    var s0 := Initial(width, height, framerate);
    var body := TryBlockEffects(FindCaptureFormat(width, height, framerate), newSurface, devices, fault);
    StartLog(s0, newSurface, devices, fault);
    TryBlockReleasesNothing(FindCaptureFormat(width, height, framerate), newSurface, devices, fault);
    KeepOnce(s0.log, [CameraOpening], None);
    KeepOnce(s0.log + [CameraOpening], body, None);
    KeepOnce(s0.log + [CameraOpening] + body, [SessionDone], None);
  }

  /**
   * No double release of a native camera, for any history: provided every
   * posted open is handed a new camera, each native camera is closed at most
   * once and destroyed at most once, whatever arrives after start.
   */
  lemma NativeCameraReleasedAtMostOnce(width: int, height: int, framerate: int,
                                       newSurface: Option<SurfaceId>, devices: seq<DeviceId>, fault: StartFault,
                                       inputs: seq<Input>)
    requires FreshOpens(Start(Initial(width, height, framerate), true, newSurface, devices, fault).next, inputs)
    ensures var r := Run(Start(Initial(width, height, framerate), true, newSurface, devices, fault).next, inputs);
            forall c :: multiset(r.log)[CameraClosed(c)] <= 1 && multiset(r.log)[CameraDestroyed(c)] <= 1
  {
    var s := Start(Initial(width, height, framerate), true, newSurface, devices, fault).next;
    StartReleasesNothing(width, height, framerate, newSurface, devices, fault);
    RunKeepsOnce(s, inputs);
    var l := Run(s, inputs).log;
    forall c ensures multiset(l)[CameraClosed(c)] <= 1 && multiset(l)[CameraDestroyed(c)] <= 1 {
      assert Closes(l, c) <= 1 && Destroys(l, c) <= 1;
    }
  }
}
