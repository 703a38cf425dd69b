# Frame crop and camera configuration of example-cam-2

A model of the logic inside `ViewController.swift`, the one view controller of the
example-cam-2 app. The app has two parts:

* **Zero-copy crop.** For every camera frame, the capture callback crops a fixed
  rectangle (x 0, y 500, 1080 × 600 pixels) out of the frame. `resizePixelBuffer`
  locks the frame read-only and computes the byte offset of the rectangle's origin:
  `y * rowBytes + x * 4`. It then asks Core Video for a new pixel buffer that wraps
  the frame's own bytes. The new buffer starts at that offset, has the rectangle's
  size, keeps the frame's row stride and is declared 32BGRA, so nothing is copied.
  Module `PixelBuffers` (`pixel_buffer.dfy`) holds the frame, the descriptor
  (`View`) and the byte arithmetic. Module `Crop` (`crop.dfy`) holds the crop and
  the callback as methods. These methods track the frame's read-lock count and
  never write the frame's bytes.
* **Camera configuration.** The three-valued `CameraConfiguration` and the flag
  `isSessionRunning` are driven by `attemptToConfigureSession`,
  `requestCameraAccess`, `configureSession`, `checkCameraConfigurationAndStartSession`,
  `startSession` and `stopSession`. Module `Camera` (`camera.dfy`) models them as
  methods of a class `ViewController`. Each method's new state is stated as a pure
  transition function of the old state: `Authorize`, `Configure`, `CheckAndStart`
  or `Stop`. The framework can also stop the session by itself (after a runtime
  error or a media-services reset). The controller's observer hooks are empty, so
  only the session's own flag changes; this is the `Interrupted` event (`Interrupt`).
  `Apply` and `Run` apply those functions to any sequence of entry points and
  interruptions. The lemmas prove two things about every completed run. First, a
  running session is known to the controller, and it has an input and an output
  attached. Second, the session runs only after an attempt in which access was
  authorized or granted and the session accepted both the input and the output. The
  controller's copy of the flag can stay set after an interruption, and a later
  `stopSession` does not clear it (`InterruptionLeavesStaleFlag`).

Everything the Apple frameworks decide is a parameter:

* the authorization status, and the user's answer to the access request;
* whether a back camera exists and whether its input can be created;
* `canAddInput` and `canAddOutput`;
* whether the session reports running after `startRunning`, and when the session
  stops by itself (the `Interrupted` event);
* whether the locked frame exposes a base address;
* the status returned by `CVPixelBufferCreateWithBytes`.

The two `fatalError` calls become the `Exit.FatalError` outcome. The callback's
forced unwrap of a missing crop becomes the `Crash` outcome.

The code does not check the crop rectangle against the frame. The model therefore
states the rectangle's fit as a precondition (`WithinRows`): `y + height` is at most
the frame's height, and `(x + width) * 4` is at most `rowBytes`. The new buffer is
always declared 32BGRA, whatever the frame's format. The video output is configured
for BGRA frames, so the two agree in practice, but the model follows the code and
does not copy the frame's format. On success the lock is released before the view
is returned. The callback then reads the view after the unlock; the model records
the lock count, not this lifetime.

## Model

| member | source | states |
|---|---|---|
| PixelBuffers.StartOffset | example-cam-2/ViewController.swift:266-268 | the start offset is the first byte of the rectangle's origin pixel, with 4 bytes per pixel and the frame's row stride |
| PixelBuffers.CropView | example-cam-2/ViewController.swift:268-279 | the descriptor has the rectangle's width and height, the frame's row stride (not width × 4) and format 32BGRA; byte k of its pixel (r, c) is byte k of frame pixel (y + r, x + c), at `start + r*rowBytes + c*4 + k` |
| PixelBuffers.CropViewInsideFrame | example-cam-2/ViewController.swift:266-279 | when the rectangle fits the frame's rows, every byte the descriptor addresses lies inside the frame's `rowBytes * height` bytes |
| PixelBuffers.CropViewInjective | example-cam-2/ViewController.swift:266-279 | distinct pixel bytes of the descriptor are distinct frame bytes, so the view does not overlap itself |
| PixelBuffers.CropRowIsSourceSlice | example-cam-2/ViewController.swift:266-279 | each row of the view is the contiguous run of `width * 4` frame bytes starting at that row's first selected pixel; consecutive rows are one frame stride apart |
| Crop.ResizePixelBuffer | example-cam-2/ViewController.swift:258-313 | as written: it returns the crop descriptor exactly when a base address exists and the creation status is 0; the frame's bytes are unchanged; both nil returns keep the read lock, and only success releases it |
| Crop.ResizePixelBufferBalanced | example-cam-2/ViewController.swift:258-313 | the same result as the code, with the read lock released on every path |
| Crop.LockLeakWitness | example-cam-2/ViewController.swift:260-283 | a 1×2 frame whose descriptor creation fails with -6661 keeps one lock under the crop as written and none under the balanced crop |
| Crop.CaptureOutput | example-cam-2/ViewController.swift:223-249 | a sample without a pixel buffer is ignored; otherwise the fixed region is cropped, and the result is either a crash (a nil crop is force-unwrapped) or a displayed 1080 × 600 view whose start is `500 * rowBytes` |
| Camera.AccessConfiguration | example-cam-2/ViewController.swift:113-123 | an access answer gives Success if access is granted, PermissionDenied otherwise, and never Failed |
| Camera.Authorize | example-cam-2/ViewController.swift:90-103 | authorized gives Success and denied gives PermissionDenied; not-determined takes the access answer; any other status keeps the previous configuration; nothing else changes |
| Camera.Configure | example-cam-2/ViewController.swift:129-152 | nothing changes unless the configuration is Success; it stays Success exactly when the input and the output are both added, and otherwise becomes Failed; a rejected output leaves the added input attached |
| Camera.CheckAndStart | example-cam-2/ViewController.swift:59-84 | only a Success configuration starts the session, and then both running flags take the session's answer; Failed and PermissionDenied change nothing |
| Camera.Stop | example-cam-2/ViewController.swift:45-53 | afterwards the session is not running; the controller's copy of the flag is updated only if the session was running |
| Camera.Interrupt | example-cam-2/ViewController.swift:48-50 | the session stops by itself: only the session's own flag becomes false; the controller's copy is not told |
| Camera.ApplyKeepsConsistent | example-cam-2/ViewController.swift:45-152 | every entry point that completes, and every interruption, keeps a running session known to the controller (`running` implies `isSessionRunning`), and keeps an input and an output attached whenever the state is Success or running |
| Camera.RunKeepsConsistent | example-cam-2/ViewController.swift:45-152 | the same invariant holds after any sequence of entry points and interruptions that completes |
| Camera.ApplyNeedsPermission | example-cam-2/ViewController.swift:59-152 | after one entry point, a Success or running state was already present, or the entry point was an attempt with permission whose input and output were both accepted |
| Camera.RunNeedsPermission | example-cam-2/ViewController.swift:59-152 | the same holds over any sequence of entry points |
| Camera.RunningRequiresPermission | example-cam-2/ViewController.swift:22-23 | starting from a new controller (Failed, not running), the session runs only after some attempt with access authorized or granted and with the input and the output accepted |
| Camera.InterruptionLeavesStaleFlag | example-cam-2/ViewController.swift:45-62 | after a successful start-up, an interruption and then `stopSession`, the controller still believes the session is running while it is not, because line 48 stops only a running session |
| Camera.StartUpOutcome | example-cam-2/ViewController.swift:27-32 | loading the view stops the program exactly when permission is given but the camera or its input is missing; otherwise the session runs exactly when permission was given, both the input and the output were added, and the session reports running |
| Camera.ViewController.constructor | example-cam-2/ViewController.swift:22-23 | a new controller is Failed, not running, and has nothing attached |
| Camera.ViewController.ViewDidLoad | example-cam-2/ViewController.swift:27-32 | the new state is the attempt followed by the check-and-start, or none when a fatal error stops the program |
| Camera.ViewController.StopSession | example-cam-2/ViewController.swift:45-53 | the new state is `Stop` of the old one |
| Camera.ViewController.StartSession | example-cam-2/ViewController.swift:59-62 | both running flags take the session's answer |
| Camera.ViewController.CheckCameraConfigurationAndStartSession | example-cam-2/ViewController.swift:68-84 | the new state is `CheckAndStart` of the old one |
| Camera.ViewController.AttemptToConfigureSession | example-cam-2/ViewController.swift:90-108 | the new state is `Configure` applied after `Authorize`, or none when configuration stops the program |
| Camera.ViewController.RequestCameraAccess | example-cam-2/ViewController.swift:113-123 | the configuration becomes the access answer's configuration, and nothing else changes |
| Camera.ViewController.ConfigureSession | example-cam-2/ViewController.swift:129-152 | a fatal error occurs exactly when the configuration is Success and the camera or its input is missing; otherwise the new state is `Configure` of the old one |
| Camera.ViewController.AddVideoDeviceInput | example-cam-2/ViewController.swift:157-178 | a missing camera and an input that cannot be created are fatal errors, with the code's messages; otherwise the input is attached exactly when the session accepts it |
| Camera.ViewController.AddVideoDataOutput | example-cam-2/ViewController.swift:183-196 | the output is attached exactly when the session accepts it |

## Left out

- Session wiring by AVFoundation is not modelled: the device lookup, the device input, the output's video settings and orientation, the sample-buffer delegate and queue, the preview layer, and `beginConfiguration`/`commitConfiguration`. Only the outcomes these produce are parameters.
- Dispatch queues are not modelled. This covers `sessionQueue.async`, `suspend`/`resume` and the main-queue UI blocks. The serial queue makes the access answer arrive before `configureSession` runs, and `configureSession` before the check-and-start, so the model runs these steps in that order.
- Frame ordering and frame dropping are left to the framework (`alwaysDiscardsLateVideoFrames`). The code has no queue or drop policy to model.
- The code has no copying crop and no out-of-bounds rejection, so the model has neither. The rectangle's fit is a precondition.
- CIImage and UIImage conversion is not modelled, and neither are the `print` diagnostics, the unused `vImage_Buffer` and `converter`, or the commented-out vImage code. The image shown in the debug view is the `Displayed` outcome.
- The empty `addObservers` and `removeObservers` hooks do nothing, and are not modelled.
- The crop rectangle's fields are natural numbers. The model does not cover CGFloat values, negative origins, or the truncation done by `Int(...)`.
- The memory lifetime of the view after the unlock is not modelled. The model tracks the lock count, not which bytes stay readable once the lock is released.
- Crop.CaptureOutput: it calls the balanced crop, not the crop as written. The two differ only in the lock count after a failure, and a failure crashes the callback anyway.

## Findings

| source | as written | input that shows it | evidently intended | confidence | as-written member | corrected member |
|---|---|---|---|---|---|---|
| example-cam-2/ViewController.swift:260-283 | both `return nil` paths come after the read-only lock and before the unlock, so the frame stays locked | a frame whose descriptor creation returns status -6661 leaves one read lock held (Crop.LockLeakWitness) | lock and unlock balanced on every path | high; not executed | Crop.ResizePixelBuffer | Crop.ResizePixelBufferBalanced |
