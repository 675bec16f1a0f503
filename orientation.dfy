/**
 * The two pure helpers of the session that turn the display rotation code
 * (Surface.ROTATION_0 .. ROTATION_270, read from the window manager) into
 * degrees. The rotation code is an input: the window manager is not modelled.
 */
module Orientation {

  /** Java's `%` on int: the remainder truncated toward zero (its sign follows `a`). */
  function JavaRem(a: int, b: int): (r: int)
    requires b > 0
    ensures a >= 0 ==> r == a % b
    ensures -b < r < b
  {
    if a >= 0 then a % b else -((-a) % b)
  }

  /** getDeviceOrientation: codes 1, 2, 3 are quarter turns; 0 and any other code give 0. */
  function DeviceOrientation(rotationCode: int): (degrees: int)
    ensures degrees == 0 || degrees == 90 || degrees == 180 || degrees == 270
    ensures degrees == if 0 <= rotationCode <= 3 then 90 * rotationCode else 0
  {
    match rotationCode
    case 1 => 90
    case 2 => 180
    case 3 => 270
    case _ => 0
  }

  /** getFrameOrientation: (360 - device orientation) % 360, with Java's remainder. */
  function FrameOrientation(rotationCode: int): (degrees: int)
    ensures degrees == 0 || degrees == 90 || degrees == 180 || degrees == 270
    ensures (degrees + DeviceOrientation(rotationCode)) % 360 == 0
  {
    JavaRem(360 - DeviceOrientation(rotationCode), 360)
  }

  /** The fixed table: 0 -> 0, 1 -> 270, 2 -> 180, 3 -> 90, anything else -> 0. */
  lemma FrameOrientationTable(rotationCode: int)
    ensures rotationCode == 0 ==> FrameOrientation(rotationCode) == 0
    ensures rotationCode == 1 ==> FrameOrientation(rotationCode) == 270
    ensures rotationCode == 2 ==> FrameOrientation(rotationCode) == 180
    ensures rotationCode == 3 ==> FrameOrientation(rotationCode) == 90
    ensures !(0 <= rotationCode <= 3) ==> FrameOrientation(rotationCode) == 0
  {
  }

  /** The frame orientation undoes the device rotation: applying both is a full turn or none. */
  lemma FrameOrientationCompensates(rotationCode: int)
    ensures FrameOrientation(rotationCode) == (360 - DeviceOrientation(rotationCode)) % 360
    ensures FrameOrientation(rotationCode) == 0 <==> DeviceOrientation(rotationCode) == 0
  {
  }
}
