/**
 * The capture format the session asks for, and the preview-size policy the
 * posted open applies to a freshly opened native camera.
 */
module CaptureFormats {
  import opened Optional

  datatype FramerateRange = FramerateRange(min: int, max: int)

  /** CameraEnumerationAndroid.CaptureFormat: width, height and a frame-rate range. */
  datatype CaptureFormat = CaptureFormat(width: int, height: int, framerate: FramerateRange)

  /** The three arguments of UVCCamera.setPreviewSize(width, height, mode). */
  datatype PreviewSize = PreviewSize(width: int, height: int, mode: int)

  /** UVCCamera.DEFAULT_PREVIEW_WIDTH, DEFAULT_PREVIEW_HEIGHT and DEFAULT_PREVIEW_MODE. */
  const DefaultPreviewWidth := 640
  const DefaultPreviewHeight := 480
  const DefaultPreviewMode := 0

  const DefaultPreviewSize := PreviewSize(DefaultPreviewWidth, DefaultPreviewHeight, DefaultPreviewMode)

  /**
   * findCaptureFormat: the requested values are taken as they are, and the
   * single requested frame rate is both ends of the range.
   */
  function FindCaptureFormat(width: int, height: int, framerate: int): (f: CaptureFormat)
    ensures f.width == width && f.height == height
    ensures f.framerate.min == framerate && f.framerate.max == framerate
  {
    CaptureFormat(width, height, FramerateRange(framerate, framerate))
  }

  /** The first setPreviewSize call: the format's width and height, and framerate.max as third argument. */
  function RequestedPreviewSize(f: CaptureFormat): PreviewSize
  {
    PreviewSize(f.width, f.height, f.framerate.max)
  }

  /** The setPreviewSize calls made, in order, and the size that was accepted, if any. */
  datatype Negotiation = Negotiation(tried: seq<PreviewSize>, applied: Option<PreviewSize>)

  /**
   * The fallback of the posted open: try the requested size; only when the
   * camera rejects it, try the library default once. `accepts` stands for
   * "setPreviewSize did not throw IllegalArgumentException".
   */
  function NegotiatePreviewSize(f: CaptureFormat, accepts: PreviewSize -> bool): (n: Negotiation)
    ensures 1 <= |n.tried| <= 2
    ensures n.tried[0] == RequestedPreviewSize(f)
    ensures |n.tried| == 2 <==> !accepts(RequestedPreviewSize(f))
    ensures |n.tried| == 2 ==> n.tried[1] == DefaultPreviewSize
    ensures n.applied.Some? <==> accepts(n.tried[|n.tried| - 1])
    ensures n.applied.Some? ==> n.applied.value == n.tried[|n.tried| - 1]
  {
    var requested := RequestedPreviewSize(f);
    if accepts(requested) then Negotiation([requested], Some(requested))
    else if accepts(DefaultPreviewSize) then Negotiation([requested, DefaultPreviewSize], Some(DefaultPreviewSize))
    else Negotiation([requested, DefaultPreviewSize], None)
  }

  /** A camera that takes the requested size never sees the fallback. */
  lemma NoFallbackWhenAccepted(f: CaptureFormat, accepts: PreviewSize -> bool)
    requires accepts(RequestedPreviewSize(f))
    ensures NegotiatePreviewSize(f, accepts) == Negotiation([RequestedPreviewSize(f)], Some(RequestedPreviewSize(f)))
  {
  }

  /** The size asked of the camera first is exactly the format findCaptureFormat built from the request. */
  lemma RequestedSizeFollowsRequest(width: int, height: int, framerate: int, accepts: PreviewSize -> bool)
    ensures NegotiatePreviewSize(FindCaptureFormat(width, height, framerate), accepts).tried[0]
         == PreviewSize(width, height, framerate)
  {
  }
}
