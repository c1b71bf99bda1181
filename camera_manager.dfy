/** The camera settings the camera manager keeps: the flash setting and its
    cycle, the zoom level, what flipping the camera resets, the flash mode a
    photo is taken with, and the range check on a requested zoom factor. The
    capture device is reduced to the state these operations read and write;
    the capture session itself is outside the model. */
module CameraManager {
  import opened Wrappers

  /** `AVCaptureDevice.FlashMode`. */
  datatype FlashMode = FlashOff | FlashOn | FlashAuto

  datatype FlashState = Auto | Off | On | Unavailable
  {
    /** The next setting when the flash button is tapped. */
    function Toggled(): (r: FlashState)
      ensures r == this <==> this == Unavailable
      ensures r == Unavailable <==> this == Unavailable
    {
      match this
      case Auto => Off
      case Off => On
      case On => Auto
      case Unavailable => Unavailable
    }

    /** The device flash mode of the setting: none for `unavailable`. */
    function Mode(): (r: Option<FlashMode>)
      ensures r.None? <==> this == Unavailable
    {
      match this
      case Auto => Some(FlashAuto)
      case Off => Some(FlashOff)
      case On => Some(FlashOn)
      case Unavailable => None
    }
  }

  /** Tapping the flash button cycles off, on, auto and back: every available
      setting returns to itself after exactly three taps. */
  lemma FlashCycle(s: FlashState)
    requires s != Unavailable
    ensures s.Toggled().Toggled().Toggled() == s
    ensures s.Toggled() != s && s.Toggled().Toggled() != s
    ensures {s, s.Toggled(), s.Toggled().Toggled()} == {Off, On, Auto}
  {
  }

  /** Each available setting has the device mode of the same name. */
  lemma ModeHasSameName(s: FlashState)
    ensures s.Mode() == Some(FlashOff) <==> s == Off
    ensures s.Mode() == Some(FlashOn) <==> s == On
    ensures s.Mode() == Some(FlashAuto) <==> s == Auto
  {
  }

  /** The flash mode of a photo: `auto` only for the `auto` setting, `off` for
      every other, `on` included. */
  function PhotoFlashMode(s: FlashState): (m: FlashMode)
    ensures m != FlashOn
    ensures m == FlashAuto <==> s == Auto
    ensures s.Mode().Some? && s.Mode().value != FlashOn ==> m == s.Mode().value
  {
    match s
    case Off => FlashOff
    case On => FlashOff
    case Unavailable => FlashOff
    case Auto => FlashAuto
  }

  datatype ZoomLevel = Normal | Magnify
  {
    /** The video zoom factor of the level. */
    function Level(): (r: real)
      ensures r == 1.0 <==> this == Normal
      ensures r == 2.0 <==> this == Magnify
    {
      match this
      case Normal => 1.0
      case Magnify => 2.0
    }

    /** The other level, as `toggleZoom` switches. */
    function Toggled(): (r: ZoomLevel)
      ensures r != this
    {
      match this
      case Normal => Magnify
      case Magnify => Normal
    }
  }

  /** Toggling the zoom twice restores the level and its zoom factor. */
  lemma ZoomToggleTwice(z: ZoomLevel)
    ensures z.Toggled().Toggled() == z
    ensures z.Toggled().Level() != z.Level()
  {
  }

  /** The capture device, as far as these settings touch it. Locking it for
      configuration may fail; `canLock` says whether it succeeds. */
  class CaptureDevice {
    var videoZoomFactor: real
    const minAvailableVideoZoomFactor: real
    const maxAvailableVideoZoomFactor: real
    const isTorchAvailable: bool
    const canLock: bool
    var torchOn: bool

    constructor (zoomFactor: real, minZoom: real, maxZoom: real, torchAvailable: bool, lockable: bool)
      ensures videoZoomFactor == zoomFactor && !torchOn
      ensures minAvailableVideoZoomFactor == minZoom && maxAvailableVideoZoomFactor == maxZoom
      ensures isTorchAvailable == torchAvailable && canLock == lockable
    {
      videoZoomFactor := zoomFactor;
      minAvailableVideoZoomFactor := minZoom;
      maxAvailableVideoZoomFactor := maxZoom;
      isTorchAvailable := torchAvailable;
      canLock := lockable;
      torchOn := false;
    }
  }

  class CameraManager {
    var flashState: FlashState
    var zoomLevel: ZoomLevel
    var cameraDevice: CaptureDevice?

    /** A new manager: flash off, zoom magnified, no device chosen yet. */
    constructor ()
      ensures flashState == Off && zoomLevel == Magnify && cameraDevice == null
    {
      flashState := Off;
      zoomLevel := Magnify;
      cameraDevice := null;
    }

    /** `toggleZoom`: switches the level and ramps the device, if any, to the
        new level's factor. The ramp takes effect only on a device locked for
        configuration; a device that cannot be locked keeps its factor. */
    method ToggleZoom()
      modifies this, cameraDevice
      ensures zoomLevel == old(zoomLevel).Toggled()
      ensures flashState == old(flashState) && cameraDevice == old(cameraDevice)
      ensures cameraDevice != null ==>
        && cameraDevice.videoZoomFactor ==
             (if cameraDevice.canLock then zoomLevel.Level() else old(cameraDevice.videoZoomFactor))
        && cameraDevice.torchOn == old(cameraDevice.torchOn)
    {
      match zoomLevel {
        case Normal => zoomLevel := Magnify;
        case Magnify => zoomLevel := Normal;
      }
      if cameraDevice != null && cameraDevice.canLock {
        cameraDevice.videoZoomFactor := zoomLevel.Level();
      }
    }

    /** `toggleFlashSetting`: always advances the setting; when the device has
        a torch, the torch is lit exactly when the new setting is `on`. */
    method ToggleFlashSetting()
      modifies this, cameraDevice
      ensures flashState == old(flashState).Toggled()
      ensures zoomLevel == old(zoomLevel) && cameraDevice == old(cameraDevice)
      ensures cameraDevice != null ==> cameraDevice.videoZoomFactor == old(cameraDevice.videoZoomFactor)
      ensures cameraDevice != null ==>
        cameraDevice.torchOn == if cameraDevice.isTorchAvailable then flashState == On else old(cameraDevice.torchOn)
    {
      flashState := flashState.Toggled();
      if cameraDevice == null || !cameraDevice.isTorchAvailable {
        return;
      }
      cameraDevice.torchOn := flashState == On;
    }

    /** `flipCamera`: drops the device, resets zoom and flash to their initial
        values and restarts the session on the other side. The device the
        restart discovers (none on a simulator or when there is no camera on
        that side) is `discovered`; configuring it sets its zoom factor to the
        level's when it can be locked. */
    method FlipCamera(discovered: CaptureDevice?)
      modifies this, discovered
      ensures flashState == Off && zoomLevel == Magnify
      ensures cameraDevice == discovered
      ensures discovered != null ==>
        && discovered.videoZoomFactor ==
             (if discovered.canLock then Magnify.Level() else old(discovered.videoZoomFactor))
        && discovered.torchOn == old(discovered.torchOn)
    {
      cameraDevice := null;
      zoomLevel := Magnify;
      flashState := Off;
      cameraDevice := discovered;
      if cameraDevice != null && cameraDevice.canLock {
        cameraDevice.videoZoomFactor := zoomLevel.Level();
      }
    }

    /** `captureImage`: no photo is requested without a delegate or when the
        output cannot encode JPEG; otherwise the photo's flash mode. */
    function CaptureImage(hasDelegate: bool, jpegSupported: bool): (r: Option<FlashMode>)
      reads this
      ensures r.Some? <==> hasDelegate && jpegSupported
      ensures r.Some? ==> (r.value == FlashAuto <==> flashState == Auto)
      ensures r.Some? ==> r.value != FlashOn
    {
      if !hasDelegate || !jpegSupported then None else Some(PhotoFlashMode(flashState))
    }

    /** `setZoom`: the factor changes only when there is a device, the factor
        differs from the current one, it lies within the device's range and
        the device can be locked; nothing else ever changes. */
    method SetZoom(zoomFactor: real)
      modifies cameraDevice
      ensures cameraDevice != null ==>
        cameraDevice.videoZoomFactor ==
          if cameraDevice.minAvailableVideoZoomFactor <= zoomFactor <= cameraDevice.maxAvailableVideoZoomFactor
             && cameraDevice.canLock
          then zoomFactor else old(cameraDevice.videoZoomFactor)
      ensures cameraDevice != null ==> cameraDevice.torchOn == old(cameraDevice.torchOn)
    {
      var device := cameraDevice;
      if device == null || device.videoZoomFactor == zoomFactor {
        return;
      }
      if !(zoomFactor <= device.maxAvailableVideoZoomFactor && zoomFactor >= device.minAvailableVideoZoomFactor) {
        return;
      }
      if device.canLock {
        device.videoZoomFactor := zoomFactor;
      }
    }
  }

  /** What a client of the manager can rely on: two zoom taps restore the
      zoom level, three flash taps restore an available flash setting, and a
      flip brings back the settings of a new manager. */
  method SettingsClient(m: CameraManager, discovered: CaptureDevice?)
    requires m.flashState != Unavailable
    modifies m, m.cameraDevice, discovered
  {
    var zoom, flash := m.zoomLevel, m.flashState;
    m.ToggleZoom();
    m.ToggleZoom();
    assert m.zoomLevel == zoom;
    m.ToggleFlashSetting();
    m.ToggleFlashSetting();
    m.ToggleFlashSetting();
    FlashCycle(flash);
    assert m.flashState == flash;
    var initial := new CameraManager();
    m.FlipCamera(discovered);
    assert m.flashState == initial.flashState && m.zoomLevel == initial.zoomLevel;
  }
}
