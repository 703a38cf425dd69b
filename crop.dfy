/**
  The crop the capture callback applies to every frame, and the callback
  itself. The crop locks the frame read-only, computes where the crop
  rectangle starts and asks the framework for a descriptor over those bytes;
  the framework's answers (whether the frame has a base address, the status
  of the descriptor creation) are parameters.
 */
module Crop {
  import opened Options
  import opened PixelBuffers

  /** The rectangle the capture callback crops out of every frame. */
  const FixedRegion := Rect(0, 500, 1080, 600)

  /** Status `kCVReturnInvalidArgument`, one of the non-zero answers of the descriptor creation. */
  const InvalidArgument := -6661

  /**
    The crop as written. The result, when there is one, is the zero-copy
    view of `rect` over the frame's memory; it is absent when the frame has
    no base address or the descriptor creation reports a non-zero status.
    The frame's bytes are never written. Both absent results return with the
    read lock still held; only a present result releases it.
   */
  method ResizePixelBuffer(pixelBuffer: PixelBuffer, rect: Rect, createStatus: int) returns (newPixelBuffer: Option<View>)
    requires pixelBuffer.Valid()
    requires WithinRows(rect, pixelBuffer.rowBytes, pixelBuffer.height)
    modifies pixelBuffer`readLocks
    ensures newPixelBuffer.Some? <==> pixelBuffer.hasBaseAddress && createStatus == 0
    ensures newPixelBuffer.Some? ==> newPixelBuffer.value == CropView(rect, pixelBuffer.rowBytes)
    ensures newPixelBuffer.Some? ==> ViewInside(newPixelBuffer.value, pixelBuffer.data.Length)
    ensures pixelBuffer.readLocks == old(pixelBuffer.readLocks) + (if newPixelBuffer.Some? then 0 else 1)
    ensures pixelBuffer.data[..] == old(pixelBuffer.data[..])
  {
    pixelBuffer.readLocks := pixelBuffer.readLocks + 1;
    if !pixelBuffer.hasBaseAddress {
      return None;
    }
    var start := StartOffset(rect, pixelBuffer.rowBytes);
    if createStatus != 0 {
      return None;
    }
    newPixelBuffer := Some(View(start, rect.width, rect.height, pixelBuffer.rowBytes, BGRA32));
    CropViewInsideFrame(rect, pixelBuffer.rowBytes, pixelBuffer.height);
    pixelBuffer.readLocks := pixelBuffer.readLocks - 1;
  }

  /**
    The crop with its lock balanced: the same result as ResizePixelBuffer,
    but the read lock taken at entry is released on every path.
   */
  method ResizePixelBufferBalanced(pixelBuffer: PixelBuffer, rect: Rect, createStatus: int) returns (newPixelBuffer: Option<View>)
    requires pixelBuffer.Valid()
    requires WithinRows(rect, pixelBuffer.rowBytes, pixelBuffer.height)
    modifies pixelBuffer`readLocks
    ensures newPixelBuffer.Some? <==> pixelBuffer.hasBaseAddress && createStatus == 0
    ensures newPixelBuffer.Some? ==> newPixelBuffer.value == CropView(rect, pixelBuffer.rowBytes)
    ensures newPixelBuffer.Some? ==> ViewInside(newPixelBuffer.value, pixelBuffer.data.Length)
    ensures pixelBuffer.readLocks == old(pixelBuffer.readLocks)
    ensures pixelBuffer.data[..] == old(pixelBuffer.data[..])
  {
    pixelBuffer.readLocks := pixelBuffer.readLocks + 1;
    newPixelBuffer := None;
    if pixelBuffer.hasBaseAddress {
      var start := StartOffset(rect, pixelBuffer.rowBytes);
      if createStatus == 0 {
        newPixelBuffer := Some(View(start, rect.width, rect.height, pixelBuffer.rowBytes, BGRA32));
        CropViewInsideFrame(rect, pixelBuffer.rowBytes, pixelBuffer.height);
      }
    }
    pixelBuffer.readLocks := pixelBuffer.readLocks - 1;
  }

  /**
    A two-row frame whose descriptor creation fails: the crop as written
    leaves one read lock held on it, the balanced crop none.
   */
  method LockLeakWitness() returns (locksLeft: nat, balancedLocksLeft: nat)
    ensures locksLeft == 1 && balancedLocksLeft == 0
  {
    var memory := new bv8[2 * BytesPerPixel];
    var frame := new PixelBuffer(memory, 1, 2, BytesPerPixel, BGRA32, true);
    var view := ResizePixelBuffer(frame, Rect(0, 1, 1, 1), InvalidArgument);
    locksLeft := frame.readLocks;
    var other := new PixelBuffer(memory, 1, 2, BytesPerPixel, BGRA32, true);
    view := ResizePixelBufferBalanced(other, Rect(0, 1, 1, 1), InvalidArgument);
    balancedLocksLeft := other.readLocks;
  }

  /** What one delivered frame leads to. */
  datatype FrameOutcome =
    | NoImageBuffer      // the sample carried no pixel buffer: the callback returns
    | Crash              // the crop gave no buffer and the forced unwrap traps
    | Displayed(view: View)  // the cropped view handed to the debug image view

  /**
    The capture callback: a sample without a pixel buffer is ignored;
    otherwise the fixed region is cropped and shown. The frame must be large
    enough for the fixed region (1100 rows of at least 4320 bytes), which the
    callback itself never checks.
   */
  method CaptureOutput(imageBuffer: Option<PixelBuffer>, createStatus: int) returns (outcome: FrameOutcome)
    requires imageBuffer.Some? ==> imageBuffer.value.Valid()
    requires imageBuffer.Some? ==> WithinRows(FixedRegion, imageBuffer.value.rowBytes, imageBuffer.value.height)
    modifies if imageBuffer.Some? then {imageBuffer.value} else {}
    ensures imageBuffer.None? <==> outcome == NoImageBuffer
    ensures imageBuffer.Some? ==>
      (outcome.Crash? <==> !imageBuffer.value.hasBaseAddress || createStatus != 0)
    ensures outcome.Displayed? ==>
      outcome.view == CropView(FixedRegion, imageBuffer.value.rowBytes) &&
      outcome.view.base == 500 * imageBuffer.value.rowBytes &&
      outcome.view.width == 1080 && outcome.view.height == 600
    ensures imageBuffer.Some? ==> imageBuffer.value.readLocks == old(imageBuffer.value.readLocks)
    ensures imageBuffer.Some? ==> imageBuffer.value.data[..] == old(imageBuffer.value.data[..])
  {
    if imageBuffer.None? {
      return NoImageBuffer;
    }
    var pixelBuffer := imageBuffer.value;
    var newPixelBuffer := ResizePixelBufferBalanced(pixelBuffer, FixedRegion, createStatus);
    if newPixelBuffer.None? {
      return Crash;
    }
    outcome := Displayed(newPixelBuffer.value);
  }
}
