# MoleDetector smart capture, camera settings and image metadata — a verified model

MoleDetector is an iOS camera app that helps a user photograph a patch of
skin. A pretrained classifier scores every camera frame as skin or not; when
the score stays high for long enough, the app takes the photo by itself
("smart capture"). This project models the parts of the app that are
sequential decision logic, in Dafny, and proves their properties:

- **ViewController** (`view_controller.dfy`): the smart-capture state
  machine. Each frame's score is thresholded at 0.85. A stability counter
  rises by one on a significant frame and falls by one otherwise, never below
  0. A photo is taken automatically when the counter reaches 20 on a
  significant frame while the camera is enabled. Firing disables the camera,
  and every capture resets the counter. The screen is a class with the
  fields `stability`, `cameraEnabled`, `smartCaptureIsActive` and
  `smartCaptureWanted`. Its per-frame method is proved against a pure step
  function, `FrameStep`, and the multi-frame lemmas are stated over that
  function. The class also holds the button, hint and flash-title state.
- **CameraManager** (`camera_manager.dfy`): the flash setting and its cycle,
  its device flash mode, the zoom level, the photo's flash mode, and the
  methods `toggleZoom`, `toggleFlashSetting`, `flipCamera` and `setZoom`.
  The capture device is a class that holds only the state these methods
  touch: the zoom factor and its range, torch availability, the torch, and
  whether it can be locked.
- **Classifier** (`classifier.dfy`): the label lookup `confidence`, which
  returns the first match or 0. Also the `Collection` view of a
  classification.
- **SkinClassifier** (`skin_classifier.dfy`): the two-score `SkinType`, its
  `dominant` reduce, the extraction of the scores from labels "1" and "0",
  the rounding of the skin score to hundredths, and how a classifier failure
  becomes the score 0.
- **CapturedImage** (`captured_image.dfy`): the orientation accessor. It
  reads the Orientation field (tag 274, values 1 to 8) defined in section 8
  of TIFF 6.0. Also the orientation name table, the debug descriptions, and
  the loop that collects the ten EXIF entries.
- **ImageTransformations** (`image_transformations.dfy`): the centre-square
  crop rectangle, `oriented()` and `centerSquared()`, and the two applied in
  sequence to every captured photo.
- **Wrappers** (`wrappers.dfy`): `Option` and `Result`.

Some behaviour is kept exactly as the code writes it, against what the names
suggest:

- `leftMirrored` is described as "leftMifrored".
- `CapturedImage.debugDescription` ends in `")>"`, with one parenthesis too
  many.
- `viewDidLoad` switches to manual capture but draws the button in smart
  mode.
- The stability counter and the auto-capture guard never look at
  `smartCaptureIsActive`. So a run of skin frames also triggers a capture in
  manual mode. `FrameStepIgnoresSmartMode` states this.

## Model

| member | source | states |
|---|---|---|
| `ViewController.HandleSignificance` | MoleDetector/ViewController.swift:213-215 | a frame is significant exactly when its score is at least 0.85 |
| `ViewController.BandColor` | MoleDetector/ViewController.swift:204 | green exactly for scores of at least 0.85, orange exactly for scores strictly between 0.2 and 0.85, red exactly for scores of at most 0.2; never the initial white |
| `ViewController.BandAgreesWithSignificance` | MoleDetector/ViewController.swift:203-204 | the hint starts with "Skin with accuracy of " exactly when the colour is green, which is exactly when the frame is significant |
| `ViewController.DescriptionFor` | MoleDetector/ViewController.swift:203 | the hint is "Skin with accuracy of " for a significant score and the "This is not a skin…" prompt otherwise, followed by the printed score and nothing else |
| `ViewController.ScoreBands` | MoleDetector/ViewController.swift:204 | on whole hundredths the bands are red up to 0.20, orange from 0.21 to 0.84, and green and significant from 0.85 |
| `ViewController.FlashTitle` | MoleDetector/ViewController.swift:113-126 | "Flash On" exactly for `on`, "Flash Auto" exactly for `auto`, "Flash Off" for `off` and for `unavailable` |
| `ViewController.NextStability` | MoleDetector/ViewController.swift:217-223 | exactly one up on a significant frame; exactly one down otherwise from a counter of 1 or more, and 0 from below 1; a non-negative counter stays non-negative |
| `ViewController.FrameStep` | MoleDetector/ViewController.swift:213-231 | when the guard holds (significant, camera enabled, counter at 20 or more after counting) exactly one capture is added, the counter is 0 and the camera disabled; otherwise only the counter moves; the smart-mode flag never changes |
| `ViewController.StabilityStaysNonNegative` | MoleDetector/ViewController.swift:217-223 | over any stream of frames the counter never goes below 0 |
| `ViewController.StabilityBoundedBySignificantFrames` | MoleDetector/ViewController.swift:217-223 | over any stream the counter grows by at most the number of significant frames |
| `ViewController.AtMostOneAutoCapture` | MoleDetector/ViewController.swift:225-231 | any stream of frames makes at most one automatic capture, and none while the camera is disabled, because firing disables the camera |
| `ViewController.CaptureNeedsSignificantFrames` | MoleDetector/ViewController.swift:225-231 | an automatic capture from counter `s` needs at least 20 − `s` significant frames |
| `ViewController.SignificantRunCaptures` | MoleDetector/ViewController.swift:217-231 | with the camera enabled, an unbroken run of significant frames long enough to lift the counter to 20 captures exactly once |
| `ViewController.FrameStepIgnoresSmartMode` | MoleDetector/ViewController.swift:217-231 | a frame has the same effect whatever `smartCaptureIsActive` is; a counter at 19 in manual mode still fires on a significant frame |
| `ViewController.ViewController.constructor` | MoleDetector/ViewController.swift:21-38 | counter 0, camera disabled, smart capture wanted and active, no call to the camera manager yet, a fresh camera manager with the flash off, the flash button titled "Flash Off" as View.swift:60 sets it |
| `ViewController.ViewController.SetSmartCaptureWanted` | MoleDetector/ViewController.swift:32-36 | assigning `smartCaptureWanted` makes `smartCaptureIsActive` equal to it; its frame lets it change only those two fields |
| `ViewController.ViewController.ViewDidLoad` | MoleDetector/ViewController.swift:54-55 | the screen starts with smart capture off but the button in smart mode; its frame keeps every other field, the hint, colour and flash title included |
| `ViewController.ViewController.TapSmartCapture` | MoleDetector/ViewController.swift:79-87 | the Smart button turns smart capture on, sets the button to smart mode and clears the hint; its frame keeps every other field |
| `ViewController.ViewController.TapManualCapture` | MoleDetector/ViewController.swift:89-97 | the Manual button turns smart capture off, sets the button to manual mode and clears the hint; its frame keeps every other field |
| `ViewController.ViewController.DidTapFlash` | MoleDetector/ViewController.swift:108-111 | advances the manager's flash setting by one step of its cycle and shows the new setting's title; keeps the manager's zoom and device, the device's zoom factor, and sets its torch as `toggleFlashSetting` does; changes no other field of the screen |
| `ViewController.ViewController.HandleValue` | MoleDetector/ViewController.swift:195-211 | in smart mode shows the score's hint and colour band; in manual mode changes nothing; its frame allows only the hint and the colour to change |
| `ViewController.ViewController.ObserveSignificant` | MoleDetector/ViewController.swift:217-223 | the counter becomes `NextStability` of its old value and stays non-negative |
| `ViewController.ViewController.HandleCapture` | MoleDetector/ViewController.swift:225-231 | fires exactly when the frame is significant, the camera is enabled and the counter is at least 20; firing disables the camera, resets the counter and asks the camera manager for a photo once; otherwise nothing changes |
| `ViewController.ViewController.CaptureImage` | MoleDetector/ViewController.swift:305-309 | every capture resets the counter to 0 and asks the camera manager for a photo once |
| `ViewController.ViewController.OnFrame` | MoleDetector/ViewController.swift:177-187 | one frame through the pipeline moves the smart-capture state exactly as `FrameStep` says, shows the score's hint and colour in smart mode and keeps them in manual mode; its frame keeps the mode flags, the button mode and the flash title |
| `ViewController.ViewController.TapCapture` | MoleDetector/ViewController.swift:72-77 | a manual capture resets the counter and asks the camera manager for a photo once, whatever the mode |
| `ViewController.ViewController.ResumeCamera` | MoleDetector/ViewController.swift:367-375 | resuming enables the camera |
| `ViewController.ViewController.ViewWillAppear` | MoleDetector/ViewController.swift:344-354 | appearing enables the camera and shows the current flash title |
| `ViewController.ViewController.ViewWillDisappear` | MoleDetector/ViewController.swift:356-360 | disappearing disables the camera |
| `ViewController.ViewController.ShowControlsCompleted` | MoleDetector/ViewController.swift:151-156 | the camera is enabled exactly when the controls' animation completed |
| `CameraManager.FlashState.Toggled` | MoleDetector/CameraManager.swift:43-54 | `unavailable` is the only fixed point, and nothing else toggles into it |
| `CameraManager.FlashState.Mode` | MoleDetector/CameraManager.swift:56-67 | there is no device flash mode exactly for `unavailable` |
| `CameraManager.FlashCycle` | MoleDetector/CameraManager.swift:43-54 | an available setting returns to itself after exactly three toggles, and the three settings visited are off, on and auto |
| `CameraManager.ModeHasSameName` | MoleDetector/CameraManager.swift:56-67 | `off`, `on` and `auto` each map to the device mode of the same name, and only they do |
| `CameraManager.PhotoFlashMode` | MoleDetector/CameraManager.swift:443-448 | a photo's flash mode is never `on`; it is `auto` exactly for the `auto` setting |
| `CameraManager.ZoomLevel.Level` | MoleDetector/CameraManager.swift:74-81 | factor 1 exactly for `normal`, factor 2 exactly for `magnify` |
| `CameraManager.ZoomLevel.Toggled` | MoleDetector/CameraManager.swift:304-309 | toggling always changes the level |
| `CameraManager.ZoomToggleTwice` | MoleDetector/CameraManager.swift:304-309 | two toggles restore the level; one toggle changes the zoom factor |
| `CameraManager.CaptureDevice.constructor` | MoleDetector/CameraManager.swift:102 | a device with the given zoom factor and range, torch availability and lockability, its torch off |
| `CameraManager.CameraManager.constructor` | MoleDetector/CameraManager.swift:84-86 | a new manager has the flash off, the zoom magnified and no device |
| `CameraManager.CameraManager.ToggleZoom` | MoleDetector/CameraManager.swift:301-313 | switches the zoom level; a device that can be locked is brought to the new level's factor, one that cannot keeps its factor; the flash setting and the torch are unchanged |
| `CameraManager.CameraManager.ToggleFlashSetting` | MoleDetector/CameraManager.swift:454-467 | always advances the flash setting; with a torch available, lights it exactly when the new setting is `on`; the zoom is untouched |
| `CameraManager.CameraManager.FlipCamera` | MoleDetector/CameraManager.swift:153-175 | resets the flash to `off` and the zoom to `magnify`, takes the device the restart discovers, and sets that device's factor to 2 when it can be locked |
| `CameraManager.CameraManager.CaptureImage` | MoleDetector/CameraManager.swift:418-452 | a photo is requested exactly when there is a delegate and JPEG is supported; its flash mode is `auto` exactly for the `auto` setting and never `on` |
| `CameraManager.CameraManager.SetZoom` | MoleDetector/CameraManager.swift:516-540 | the device's factor becomes the requested one only if it lies within the device's range and the device can be locked; otherwise, and without a device, nothing changes |
| `Classifier.Classification.StartIndex` | MoleDetector/Classifier/Classifier.swift:70-72 | the collection starts at the array's start index, 0 |
| `Classifier.Classification.EndIndex` | MoleDetector/Classifier/Classifier.swift:74-76 | the collection ends at the array's end index, its length |
| `Classifier.Classification.Count` | MoleDetector/Classifier/Classifier.swift:67-76 | the collection has as many elements as there are observations |
| `Classifier.Classification.At` | MoleDetector/Classifier/Classifier.swift:78-81 | the subscript requires an index in bounds and yields the observation stored there |
| `Classifier.Classification.IndexAfter` | MoleDetector/Classifier/Classifier.swift:83-85 | the index after `i` is `i + 1` |
| `Classifier.Classification.ElementsFrom` | MoleDetector/Classifier/Classifier.swift:59-65 | walking from index `i` to the end visits end − i elements, each an observation of the classification |
| `Classifier.IterationYieldsObservations` | MoleDetector/Classifier/Classifier.swift:59-65 | walking the collection from any index yields the observations from that index on, in stored order |
| `Classifier.IterationOfWholeCollection` | MoleDetector/Classifier/Classifier.swift:59-76 | iterating the whole collection yields exactly the observations, as many as `Count` |
| `Classifier.FirstWithLabel` | MoleDetector/Classifier/Classifier.swift:89 | nothing is found exactly when no observation has the label; otherwise the earliest observation with the label is found |
| `Classifier.Confidence` | MoleDetector/Classifier/Classifier.swift:88-90 | the confidence of the earliest observation with the label, and 0 when no observation has it (an empty list included) |
| `SkinClassifier.SkinType.Observations` | MoleDetector/Classifier/SkinClassifier.swift:27-32 | exactly two observations, skin first and non-skin second, each with its own score |
| `SkinClassifier.SkinType.Dominant` | MoleDetector/Classifier/SkinClassifier.swift:34-38 | the dominant observation carries the score of its own name, which is at least both scores |
| `SkinClassifier.Reduce` | MoleDetector/Classifier/SkinClassifier.swift:34-38 | the reduce yields the start or one of the observations, with a confidence at least that of every one of them; it leaves the start only for a strictly higher confidence |
| `SkinClassifier.DominantIsMaximum` | MoleDetector/Classifier/SkinClassifier.swift:34-38 | the dominant observation's confidence is max(skin, nonSkin), and it is the score of its own name |
| `SkinClassifier.DominantTieGoesToSkin` | MoleDetector/Classifier/SkinClassifier.swift:34-38 | non-skin dominates exactly when its score is strictly above the skin score |
| `SkinClassifier.SkinTypeOf` | MoleDetector/Classifier/SkinClassifier.swift:54-60 | the skin score is the confidence of the first label "1" and the non-skin score that of the first label "0", each 0 when its label is missing |
| `SkinClassifier.RoundedToHundredths` | MoleDetector/Classifier/SkinClassifier.swift:69 | the result is a whole number of hundredths within half a hundredth of the input, a half going away from zero |
| `SkinClassifier.Classify` | MoleDetector/Classifier/SkinClassifier.swift:53-63 | a classifier failure is passed on unchanged; a success becomes the skin type of its observations |
| `SkinClassifier.GetSkin` | MoleDetector/Classifier/SkinClassifier.swift:66-74 | a failure is passed on; a success yields the skin score rounded to hundredths, a whole number of hundredths |
| `SkinClassifier.SkinScore` | MoleDetector/Classifier/SkinClassifier.swift:109-124 | a failure becomes the score 0; a success yields its value |
| `SkinClassifier.ScoreOfClassification` | MoleDetector/Classifier/SkinClassifier.swift:109-140 | the score that reaches smart capture is the confidence of label "1" rounded to hundredths, or 0 on failure, so always a whole number of hundredths; the `SkinType`-valued variant keeps the failure |
| `CapturedImage.Orientation.RawValue` | MoleDetector/CapturedImage.swift:106-108 | every orientation's raw value lies in 1 to 8 |
| `CapturedImage.OrientationFromRaw` | MoleDetector/CapturedImage.swift:57 | an orientation exists exactly for the raw values 1 to 8, and it has that raw value |
| `CapturedImage.RawValueRoundTrip` | MoleDetector/CapturedImage.swift:57 | every orientation is recovered from its raw value |
| `CapturedImage.OrientationOf` | MoleDetector/CapturedImage.swift:54-62 | an orientation is read exactly when the key is present, holds a `UInt32` and that value is 1 to 8; it is the orientation with that raw value |
| `CapturedImage.Description` | MoleDetector/CapturedImage.swift:92-104 | each of the eight orientations has its own name (`leftMirrored` spelt "leftMifrored"), never the fallback "unknown" |
| `CapturedImage.DescriptionIsInjective` | MoleDetector/CapturedImage.swift:92-104 | two orientations have the same name exactly when they are the same orientation |
| `CapturedImage.DecimalRoundTrip` | MoleDetector/CapturedImage.swift:65 | the decimal text of a number reads back as that number |
| `CapturedImage.OrientationDebugDescription` | MoleDetector/CapturedImage.swift:106-108 | the name followed by four more characters, the last of them ")" |
| `CapturedImage.OrientationDebugDescriptionReadsBack` | MoleDetector/CapturedImage.swift:106-108 | the debug description is the name, " (", the raw value's single digit and ")" |
| `CapturedImage.OrientationDebugDescriptionIsInjective` | MoleDetector/CapturedImage.swift:106-108 | two orientations have the same debug description exactly when they are the same orientation |
| `CapturedImage.SizeDescription` | MoleDetector/CapturedImage.swift:65 | the width's decimal text, an "x", then the height's decimal text |
| `CapturedImage.SizeDescriptionReadsBack` | MoleDetector/CapturedImage.swift:65 | the "WxH" text reads back as the width and the height |
| `CapturedImage.OrientationText` | MoleDetector/CapturedImage.swift:66 | the orientation part is "?" exactly when there is no orientation |
| `CapturedImage.SelectedMeta` | MoleDetector/CapturedImage.swift:68-86 | only the ten listed EXIF keys appear, each exactly when the EXIF dictionary holds it and with its value; nothing without an EXIF dictionary |
| `CapturedImage.CollectMeta` | MoleDetector/CapturedImage.swift:68-86 | the loop over the ten keys builds exactly the `SelectedMeta` summary |
| `CapturedImage.DebugDescription` | MoleDetector/CapturedImage.swift:64-88 | "<CapturedImage ", the size text, the orientation text, the rendered summary and ")>", separated by spaces |
| `ImageTransformations.CenterSquare` | MoleDetector/CapturedImage+Transformations.swift:48-54 | a square of side min(width, height), with no offset along the shorter axis |
| `ImageTransformations.CenterSquareIsContainedAndCentred` | MoleDetector/CapturedImage+Transformations.swift:49-53 | the square lies inside the rectangle and leaves equal margins on both sides of the longer axis |
| `ImageTransformations.CenterSquareFixesExactlySquares` | MoleDetector/CapturedImage+Transformations.swift:49-53 | a rectangle at the origin is its own centre square exactly when it is square |
| `ImageTransformations.CenterSquareTwice` | MoleDetector/CapturedImage+Transformations.swift:49-53 | a second crop gives the first square at the origin, and for a square input cropping twice equals cropping once |
| `ImageTransformations.Oriented` | MoleDetector/CapturedImage+Transformations.swift:20-34 | without a valid orientation tag the image is returned unchanged; otherwise a failed render is `unableToCreateCGImage` and a successful one yields the rendered image |
| `ImageTransformations.OrientedMetadata` | MoleDetector/CapturedImage+Transformations.swift:30-31 | after orienting, the orientation tag reads `up` (or the metadata is untouched when there was no valid tag), and every other entry is kept |
| `ImageTransformations.OrientedTwice` | MoleDetector/CapturedImage+Transformations.swift:20-34 | orienting twice leaves the same metadata as orienting once |
| `ImageTransformations.CenterSquared` | MoleDetector/CapturedImage+Transformations.swift:37-44 | the crop asks for the centre square of the full image; a failed crop is `unableToCropCGImage`; a successful one keeps the metadata |
| `ImageTransformations.Normalized` | MoleDetector/CameraManager.swift:568 | succeeds exactly when orienting and then cropping both succeed; a failed render stops it with `unableToCreateCGImage`, and only that does |
| `ImageTransformations.NormalizedIsUpright` | MoleDetector/CameraManager.swift:568 | a normalised photo reads as upright, or keeps its metadata untouched when it had no valid orientation tag |

## Left out

- Scores are Swift `Float`s; here they are `real`s, and the thresholds 0.85 and 0.2 are exact. The Float literals are slightly larger, so on arbitrary reals the model's bands differ from the app's near both thresholds (the Float nearest 0.2 is orange here and red in the app). The scores the screen receives are whole hundredths, and the app holds each as the nearest Float. Rounding to Float keeps order, and 0.20, 0.21, 0.84 and 0.85 are four distinct Floats, so on those scores the model splits the bands where the app does (`ViewController.ScoreBands`). NaN is not modelled.
- `stability` is an unbounded integer. Swift's `Int` would trap after 2^63 significant frames with the camera disabled.
- The reactive pipeline is modelled as one sequential step per frame. Not modelled: the throttle (5 ms), the dispatch queues, `observe(on:)`, and the asynchronous UI animations. In the model, every frame reaches the counter.
- `SkinClassifier.RoundedToHundredths`: rounds the exact product `x * 100`; the app first rounds that product to a Float, which can move a score lying within a Float step of a half-hundredth to the other neighbouring hundredth.
- The Lanczos resize before classification, the Vision/CoreML request and the model itself are not modelled. The classifier's output is an input, a list of (label, confidence) pairs. `Classification`'s `image` field is not kept.
- Swift string equality is Unicode canonical equivalence; here labels are compared as character sequences.
- The camera session: `startSession`, `configureSession`, `stopRecording`/`startRecording`, focus and exposure, the torch helpers `toggleTorch`/`setTorchActive`, sample-buffer handling, the video rotation and the photo delegate's plumbing are AVFoundation calls. The device a session restart discovers is a parameter of `FlipCamera`.
- `CameraManager.CameraManager.ToggleZoom`: does not model that the ramp to the new factor is gradual, because the ramp rate is timing. The source ignores a failed `lockForConfiguration` with `try?` and ramps anyway, which AVFoundation refuses on an unlocked device by raising an exception; the model leaves that device's factor unchanged instead. It also leaves out what the device does with a factor outside its range.
- `CameraManager.CameraManager.ToggleFlashSetting`: does not model a failed `lockForConfiguration` or a failed `setTorchModeOn`, because the source ignores both with `try?`.
- `ViewController.ViewController.CaptureImage`: counts the calls to the camera manager's `captureImage()`; whether a call produces a photo (a delegate is set, JPEG is supported) is `CameraManager.CameraManager.CaptureImage`, which the screen's model does not call.
- `CameraManager.CameraManager.CaptureImage`: models only the photo request's flash mode and when a request is made. Not modelled: the codec and stabilisation settings, and the simulator branch, which delivers a random image.
- Images are reduced to their pixel size. Drawing an image upright (`CIImage.oriented`, `createCGImage`) and cropping pixels (`cropping(to:)`, including its rounding to whole pixels) are parameters that may fail. JPEG encoding (`jpegData`) is not modelled.
- `CapturedImage.OrientationFromRaw`: assumes that `CGImagePropertyOrientation(rawValue:)` rejects values outside 1 to 8, the values the TIFF 6.0 field defines. If the platform's initialiser accepts any raw value, the name "unknown" (CapturedImage.swift:102) and what `oriented()` does with such a value are not modelled.
- Metadata values are reduced to three kinds: a `UInt32`, the EXIF dictionary (its values kept as their printed text), and any other value. How Swift prints the `meta` dictionary, whose key order is unspecified, is a parameter of `DebugDescription`.
- The UI (`View.swift`, `HapticButton.swift`, `CameraPreviewView.swift`), haptics, alerts and the camera-permission prompt are not modelled. The random colour of the simulator image is not modelled either.
