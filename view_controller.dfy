/** The camera screen's smart-capture logic. Every classified frame yields a
    skin score; a score of at least 0.85 is significant. A stability counter
    goes up on a significant frame and down (never below 0) otherwise, and
    once it reaches 20 on a significant frame while the camera is enabled, a
    photo is captured automatically and the camera is disabled. Every
    capture, manual or automatic, resets the counter. */
module ViewController {
  import opened Wrappers
  import CameraManager
  import SkinClassifier

  const SignificanceThreshold: real := 0.85
  const RedCeiling: real := 0.2
  const StabilityTarget: int := 20

  /** The smart-mode colour of the capture button (white until a score has
      been shown). */
  datatype Color = White | Green | Orange | Red

  /** The capture button's mode. */
  datatype CaptureMode = Smart | Manual

  /** `handle(significance:)`: whether a frame's score counts towards
      stability. */
  function HandleSignificance(significance: real): (significant: bool)
    ensures significant <==> significance >= SignificanceThreshold
  {
    significance >= 0.85
  }

  /** The colour band of a score. */
  function BandColor(value: real): (c: Color)
    ensures c != White
    ensures c == Green <==> value >= SignificanceThreshold
    ensures c == Orange <==> RedCeiling < value < SignificanceThreshold
    ensures c == Red <==> value <= RedCeiling
  {
    if value >= 0.85 then Green else if value > 0.2 then Orange else Red
  }

  const SkinPrefix: string := "Skin with accuracy of "
  const NotSkinPrefix: string := "This is not a skin, " + "please place camera on a skin: accuracy => "

  /** The hint shown under the button; `valueText` is how the platform prints
      the score. */
  function DescriptionFor(value: real, valueText: string): (d: string)
    ensures HandleSignificance(value) ==> SkinPrefix <= d && |d| == |SkinPrefix| + |valueText|
    ensures !HandleSignificance(value) ==> NotSkinPrefix <= d && |d| == |NotSkinPrefix| + |valueText|
    ensures d[|d| - |valueText|..] == valueText
  {
    if value >= 0.85 then SkinPrefix + valueText else NotSkinPrefix + valueText
  }

  /** The hint, the colour and the significance agree: a frame is reported
      as skin, shown green and counted as significant together. */
  lemma BandAgreesWithSignificance(value: real, valueText: string)
    ensures BandColor(value) == Green <==> HandleSignificance(value)
    ensures SkinPrefix <= DescriptionFor(value, valueText) <==> HandleSignificance(value)
  {
    var d := DescriptionFor(value, valueText);
    if !HandleSignificance(value) {
      assert d[0] == NotSkinPrefix[0] == 'T';
      assert SkinPrefix[0] == 'S';
    }
  }

  /** On the scores the classifier delivers, whole numbers of hundredths, the
      bands are: red up to 0.20, orange from 0.21 to 0.84, green and
      significant from 0.85. Consecutive hundredths are distinct Floats, so
      the app's Float comparisons with 0.85 and 0.2 split these values in the
      same places. */
  lemma ScoreBands(v: real)
    requires SkinClassifier.IsWholeHundredths(v)
    ensures BandColor(v) == Red <==> v <= 0.20
    ensures BandColor(v) == Orange <==> 0.21 <= v <= 0.84
    ensures HandleSignificance(v) <==> v > 0.84
  {
    var n := (v * 100.0).Floor;
    assert v == n as real / 100.0;
    if v > 0.2 {
      assert n > 20;
    }
    if v > 0.84 {
      assert n > 84;
    }
  }

  /** The flash button's title for a flash setting. */
  function FlashTitle(s: CameraManager.FlashState): (t: string)
    ensures t == "Flash On" <==> s == CameraManager.On
    ensures t == "Flash Auto" <==> s == CameraManager.Auto
    ensures t == "Flash Off" <==> s == CameraManager.Off || s == CameraManager.Unavailable
  {
    match s
    case Off => "Flash Off"
    case On => "Flash On"
    case Auto => "Flash Auto"
    case Unavailable => "Flash Off"
  }

  /** `observe(significant:)` on the counter's value: one up on a
      significant frame, one down otherwise, never below 0. */
  function NextStability(stability: int, significant: bool): (r: int)
    ensures stability >= 0 ==> r >= 0
    ensures significant ==> r == stability + 1
    ensures !significant && stability >= 1 ==> r == stability - 1
    ensures !significant && stability < 1 ==> r == 0
  {
    if significant then stability + 1 else if stability - 1 >= 0 then stability - 1 else 0
  }

  /** The part of the screen's state that smart capture reads and writes;
      `captures` counts the times the camera manager was asked for a photo. */
  datatype CaptureState = CaptureState(stability: int, cameraEnabled: bool, smartCaptureIsActive: bool, captures: nat)

  /** `handle(capture:)`'s guard, evaluated after the counter has moved. */
  predicate Fires(s: CaptureState, score: real)
  {
    var significant := HandleSignificance(score);
    significant && s.cameraEnabled && NextStability(s.stability, significant) >= StabilityTarget
  }

  /** One classified frame through the pipeline: threshold, count, and
      capture if the guard holds. */
  function FrameStep(s: CaptureState, score: real): (t: CaptureState)
    ensures t.smartCaptureIsActive == s.smartCaptureIsActive
    ensures Fires(s, score) ==> t.captures == s.captures + 1 && t.stability == 0 && !t.cameraEnabled
    ensures !Fires(s, score) ==>
      t.captures == s.captures && t.cameraEnabled == s.cameraEnabled &&
      t.stability == NextStability(s.stability, HandleSignificance(score))
  {
    var significant := HandleSignificance(score);
    var counted := s.(stability := NextStability(s.stability, significant));
    if significant && counted.cameraEnabled && counted.stability >= StabilityTarget then
      counted.(cameraEnabled := false, stability := 0, captures := counted.captures + 1)
    else
      counted
  }

  /** A stream of frames, in order. */
  function RunFrames(s: CaptureState, scores: seq<real>): CaptureState
    decreases |scores|
  {
    if scores == [] then s else RunFrames(FrameStep(s, scores[0]), scores[1..])
  }

  /** The number of significant frames in a stream. */
  function SignificantCount(scores: seq<real>): (n: nat)
    ensures n <= |scores|
    decreases |scores|
  {
    if scores == [] then 0
    else (if HandleSignificance(scores[0]) then 1 else 0) + SignificantCount(scores[1..])
  }

  /** The counter never goes below 0. */
  lemma {:induction false} StabilityStaysNonNegative(s: CaptureState, scores: seq<real>)
    requires s.stability >= 0
    ensures RunFrames(s, scores).stability >= 0
    decreases |scores|
  {
    if scores != [] {
      StabilityStaysNonNegative(FrameStep(s, scores[0]), scores[1..]);
    }
  }

  /** The counter grows by at most the number of significant frames. */
  lemma {:induction false} StabilityBoundedBySignificantFrames(s: CaptureState, scores: seq<real>)
    requires s.stability >= 0
    ensures RunFrames(s, scores).stability <= s.stability + SignificantCount(scores)
    decreases |scores|
  {
    if scores != [] {
      StabilityBoundedBySignificantFrames(FrameStep(s, scores[0]), scores[1..]);
    }
  }

  /** Firing disables the camera, so a stream of frames makes at most one
      automatic capture, and none at all while the camera is disabled. */
  lemma {:induction false} AtMostOneAutoCapture(s: CaptureState, scores: seq<real>)
    ensures RunFrames(s, scores).captures <= s.captures + (if s.cameraEnabled then 1 else 0)
    ensures !s.cameraEnabled ==> RunFrames(s, scores).captures == s.captures
    decreases |scores|
  {
    if scores != [] {
      AtMostOneAutoCapture(FrameStep(s, scores[0]), scores[1..]);
    }
  }

  /** An automatic capture needs the counter to climb to 20: from a counter
      at `stability`, at least 20 - stability significant frames. */
  lemma {:induction false} CaptureNeedsSignificantFrames(s: CaptureState, scores: seq<real>)
    requires s.stability >= 0
    ensures RunFrames(s, scores).captures > s.captures ==> s.stability + SignificantCount(scores) >= StabilityTarget
    decreases |scores|
  {
    if scores != [] && !Fires(s, scores[0]) {
      CaptureNeedsSignificantFrames(FrameStep(s, scores[0]), scores[1..]);
    }
  }

  /** Conversely, with the camera enabled, an unbroken run of significant
      frames long enough to lift the counter to 20 captures exactly once. */
  lemma {:induction false} SignificantRunCaptures(s: CaptureState, scores: seq<real>)
    requires s.cameraEnabled && 0 <= s.stability
    requires forall i :: 0 <= i < |scores| ==> HandleSignificance(scores[i])
    requires |scores| >= 1 && s.stability + |scores| >= StabilityTarget
    ensures RunFrames(s, scores).captures == s.captures + 1
    decreases |scores|
  {
    if !Fires(s, scores[0]) {
      SignificantRunCaptures(FrameStep(s, scores[0]), scores[1..]);
    } else {
      AtMostOneAutoCapture(FrameStep(s, scores[0]), scores[1..]);
    }
  }

  /** As written, the counter and the capture guard do not look at
      `smartCaptureIsActive`: a frame has the same effect in manual mode. */
  lemma FrameStepIgnoresSmartMode(s: CaptureState, score: real, active: bool)
    ensures FrameStep(s.(smartCaptureIsActive := active), score) == FrameStep(s, score).(smartCaptureIsActive := active)
    ensures FrameStep(CaptureState(19, true, false, 0), 0.9).captures == 1
  {
  }

  class ViewController {
    const cameraManager: CameraManager.CameraManager
    var cameraEnabled: bool
    var smartCaptureIsActive: bool
    var smartCaptureWanted: bool
    var stability: int
    /** How many times the camera manager was asked for a photo. */
    var captureCount: nat
    var captureButtonMode: CaptureMode
    var smartModeColor: Color
    var descriptionText: Option<string>
    var flashTitle: string

    ghost predicate Valid()
      reads this
    {
      stability >= 0
    }

    /** The smart-capture state of the screen. */
    ghost function State(): CaptureState
      reads this
    {
      CaptureState(stability, cameraEnabled, smartCaptureIsActive, captureCount)
    }

    constructor ()
      ensures Valid() && fresh(cameraManager)
      ensures State() == CaptureState(0, false, true, 0) && smartCaptureWanted
      ensures captureButtonMode == Smart && smartModeColor == White && descriptionText == None
      ensures cameraManager.flashState == CameraManager.Off && flashTitle == "Flash Off"
    {
      cameraManager := new CameraManager.CameraManager();
      cameraEnabled := false;
      smartCaptureIsActive := true;
      smartCaptureWanted := true;
      stability := 0;
      captureCount := 0;
      captureButtonMode := Smart;
      smartModeColor := White;
      descriptionText := None;
      flashTitle := FlashTitle(CameraManager.Off);
    }

    /** Assigning `smartCaptureWanted`; its observer copies it into
        `smartCaptureIsActive`. */
    method SetSmartCaptureWanted(wanted: bool)
      modifies this`smartCaptureWanted, this`smartCaptureIsActive
      ensures smartCaptureWanted == wanted && smartCaptureIsActive == wanted
    {
      smartCaptureWanted := wanted;
      smartCaptureIsActive := smartCaptureWanted;
    }

    /** `viewDidLoad`: the screen starts in manual capture, with the button
        still drawn in smart mode. */
    method ViewDidLoad()
      modifies this`smartCaptureWanted, this`smartCaptureIsActive, this`captureButtonMode
      ensures !smartCaptureWanted && !smartCaptureIsActive && captureButtonMode == Smart
    {
      SetSmartCaptureWanted(false);
      captureButtonMode := Smart;
    }

    /** The Smart button. */
    method TapSmartCapture()
      modifies this`smartCaptureWanted, this`smartCaptureIsActive, this`captureButtonMode, this`descriptionText
      ensures smartCaptureWanted && smartCaptureIsActive && captureButtonMode == Smart && descriptionText == None
    {
      SetSmartCaptureWanted(true);
      captureButtonMode := Smart;
      descriptionText := None;
    }

    /** The Manual button. */
    method TapManualCapture()
      modifies this`smartCaptureWanted, this`smartCaptureIsActive, this`captureButtonMode, this`descriptionText
      ensures !smartCaptureWanted && !smartCaptureIsActive && captureButtonMode == Manual && descriptionText == None
    {
      SetSmartCaptureWanted(false);
      captureButtonMode := Manual;
      descriptionText := None;
    }

    /** The flash button: advances the manager's flash setting and shows its
        title. */
    method DidTapFlash()
      modifies this`flashTitle, cameraManager, cameraManager.cameraDevice
      ensures cameraManager.flashState == old(cameraManager.flashState).Toggled()
      ensures cameraManager.zoomLevel == old(cameraManager.zoomLevel)
      ensures cameraManager.cameraDevice == old(cameraManager.cameraDevice)
      ensures var device := cameraManager.cameraDevice;
        device != null ==>
          && device.videoZoomFactor == old(device.videoZoomFactor)
          && device.torchOn == if device.isTorchAvailable then cameraManager.flashState == CameraManager.On
                               else old(device.torchOn)
      ensures flashTitle == FlashTitle(cameraManager.flashState)
    {
      cameraManager.ToggleFlashSetting();
      flashTitle := FlashTitle(cameraManager.flashState);
    }

    /** `handle(value:)`: shows the score's hint and colour, in smart mode
        only. */
    method HandleValue(value: real, valueText: string)
      modifies this`descriptionText, this`smartModeColor
      ensures smartCaptureIsActive ==>
        descriptionText == Some(DescriptionFor(value, valueText)) && smartModeColor == BandColor(value)
      ensures !smartCaptureIsActive ==>
        descriptionText == old(descriptionText) && smartModeColor == old(smartModeColor)
    {
      if !smartCaptureIsActive {
        return;
      }
      descriptionText := Some(DescriptionFor(value, valueText));
      smartModeColor := BandColor(value);
    }

    /** `observe(significant:)`. */
    method ObserveSignificant(significant: bool)
      requires Valid()
      modifies this`stability
      ensures Valid()
      ensures stability == NextStability(old(stability), significant)
    {
      if significant {
        stability := stability + 1;
      } else {
        stability := if stability - 1 >= 0 then stability - 1 else 0;
      }
    }

    /** `captureImage()`: every capture resets the counter and asks the
        camera manager for a photo. */
    method CaptureImage()
      modifies this`stability, this`captureCount
      ensures Valid()
      ensures stability == 0 && captureCount == old(captureCount) + 1
    {
      stability := 0;
      captureCount := captureCount + 1;
    }

    /** `handle(capture:)`: fires when the frame is significant, the camera
        is enabled and the counter has reached 20; firing disables the
        camera before capturing. */
    method HandleCapture(capture: bool)
      requires Valid()
      modifies this`stability, this`captureCount, this`cameraEnabled
      ensures Valid()
      ensures var fires := capture && old(cameraEnabled) && old(stability) >= StabilityTarget;
        && (fires ==> !cameraEnabled && stability == 0 && captureCount == old(captureCount) + 1)
        && (!fires ==> cameraEnabled == old(cameraEnabled) && stability == old(stability)
                       && captureCount == old(captureCount))
    {
      if !(capture && cameraEnabled && stability >= StabilityTarget) {
        return;
      }
      cameraEnabled := false;
      CaptureImage();
    }

    /** One classified frame: the hint, then the significance, the counter
        and the capture guard, in the order of the reactive pipeline. */
    method OnFrame(score: real, scoreText: string)
      requires Valid()
      modifies this`descriptionText, this`smartModeColor, this`stability, this`captureCount, this`cameraEnabled
      ensures Valid()
      ensures State() == FrameStep(old(State()), score)
      ensures smartCaptureIsActive ==>
        descriptionText == Some(DescriptionFor(score, scoreText)) && smartModeColor == BandColor(score)
      ensures !smartCaptureIsActive ==>
        descriptionText == old(descriptionText) && smartModeColor == old(smartModeColor)
    {
      HandleValue(score, scoreText);
      var significant := HandleSignificance(score);
      ObserveSignificant(significant);
      HandleCapture(significant);
    }

    /** The capture button: a manual capture. */
    method TapCapture()
      requires Valid()
      modifies this`stability, this`captureCount
      ensures Valid()
      ensures stability == 0 && captureCount == old(captureCount) + 1
    {
      CaptureImage();
    }

    /** `resumeCamera()`, also run on the "restartCamera" notification and
        by `viewDidAppear`: the camera becomes enabled. */
    method ResumeCamera()
      modifies this`cameraEnabled
      ensures cameraEnabled
    {
      cameraEnabled := true;
    }

    /** `viewWillAppear`: enables the camera and shows the flash title. */
    method ViewWillAppear()
      modifies this`cameraEnabled, this`flashTitle
      ensures cameraEnabled && flashTitle == FlashTitle(cameraManager.flashState)
    {
      cameraEnabled := true;
      ResumeCamera();
      flashTitle := FlashTitle(cameraManager.flashState);
    }

    /** `viewWillDisappear`: disables the camera. */
    method ViewWillDisappear()
      modifies this`cameraEnabled
      ensures !cameraEnabled
    {
      cameraEnabled := false;
    }

    /** The end of `showControls`' animation: the camera is enabled exactly
        when the animation completed. */
    method ShowControlsCompleted(completed: bool)
      modifies this`cameraEnabled
      ensures cameraEnabled == completed
    {
      cameraEnabled := completed;
    }
  }

  /** A fresh screen, once the camera is resumed, captures exactly once on a
      run of at least 20 significant frames. */
  method ScreenClient(scores: seq<real>)
    requires |scores| >= StabilityTarget
    requires forall i :: 0 <= i < |scores| ==> HandleSignificance(scores[i])
  {
    var vc := new ViewController();
    vc.ResumeCamera();
    var i := 0;
    while i < |scores|
      invariant 0 <= i <= |scores|
      invariant vc.Valid()
      invariant vc.State() == RunFrames(CaptureState(0, true, true, 0), scores[..i])
      modifies vc
    {
      vc.OnFrame(scores[i], "");
      RunFramesSnoc(CaptureState(0, true, true, 0), scores[..i], scores[i]);
      assert scores[..i + 1] == scores[..i] + [scores[i]];
      i := i + 1;
    }
    assert scores[..i] == scores;
    SignificantRunCaptures(CaptureState(0, true, true, 0), scores);
    assert vc.captureCount == 1;
  }

  lemma {:induction false} RunFramesSnoc(s: CaptureState, scores: seq<real>, score: real)
    ensures RunFrames(s, scores + [score]) == FrameStep(RunFrames(s, scores), score)
    decreases |scores|
  {
    if scores != [] {
      assert (scores + [score])[1..] == scores[1..] + [score];
      RunFramesSnoc(FrameStep(s, scores[0]), scores[1..], score);
    }
  }
}
