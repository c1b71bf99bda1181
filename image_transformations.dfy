/** The normalisations applied to a captured photo: turning it upright
    according to its orientation tag, and cropping it to the centred square.
    Rendering and cropping pixels are done by the platform; they are
    parameters here, and only their success or failure and the resulting size
    matter. */
module ImageTransformations {
  import opened Wrappers
  import opened CapturedImage

  datatype TransformationError = UnableToCreateCGImage | UnableToCropCGImage

  /** `CGRect`, with `CGFloat` as `real`. */
  datatype Rect = Rect(x: real, y: real, width: real, height: real)

  function Abs(v: real): real
  {
    if v < 0.0 then -v else v
  }

  function Min(a: real, b: real): real
  {
    if a <= b then a else b
  }

  /** `centerSquare`: the square of side min(width, height), shifted by half
      the difference along the longer axis. Like the source, it reads only the
      size of the rectangle, so its result is placed relative to the
      rectangle's own origin. */
  function CenterSquare(r: Rect): (sq: Rect)
    ensures sq.width == sq.height == Min(r.width, r.height)
    ensures r.width <= r.height ==> sq.x == 0.0
    ensures r.height <= r.width ==> sq.y == 0.0
  {
    var offset := Abs((r.width - r.height) / 2.0);
    var cropX := if r.width > r.height then offset else 0.0;
    var cropY := if r.width < r.height then offset else 0.0;
    var edgeLength := Min(r.width, r.height);
    Rect(cropX, cropY, edgeLength, edgeLength)
  }

  /** The square lies inside the rectangle and leaves equal margins on both
      sides of each axis: it is centred. */
  lemma CenterSquareIsContainedAndCentred(r: Rect)
    ensures var sq := CenterSquare(r);
      && 0.0 <= sq.x && sq.x + sq.width <= r.width
      && 0.0 <= sq.y && sq.y + sq.height <= r.height
      && sq.x == r.width - (sq.x + sq.width)
      && (r.height >= r.width ==> sq.y == r.height - (sq.y + sq.height))
      && (r.width > r.height ==> sq.y + sq.height == r.height)
  {
  }

  /** A square at the origin is its own centre square; any other rectangle
      at the origin is not. */
  lemma CenterSquareFixesExactlySquares(r: Rect)
    requires r.x == 0.0 && r.y == 0.0
    ensures CenterSquare(r) == r <==> r.width == r.height
  {
  }

  /** Cropping twice: the second crop is the whole square placed at the
      origin, so it keeps the size of the first. */
  lemma CenterSquareTwice(r: Rect)
    ensures var sq := CenterSquare(r);
      CenterSquare(sq) == Rect(0.0, 0.0, sq.width, sq.height)
    ensures r.width == r.height ==> CenterSquare(CenterSquare(r)) == CenterSquare(r)
  {
  }

  /** `oriented()`. Without a valid orientation tag the image is returned as
      it is. Otherwise the platform draws it upright (`render`, which may fail
      to create the image) and the tag is rewritten to `up`. */
  function Oriented(img: CapturedImage, render: (Image, Orientation) -> Option<Image>)
    : (r: Result<CapturedImage, TransformationError>)
    ensures OrientationOf(img.metadata).None? ==> r == Success(img)
    ensures OrientationOf(img.metadata).Some? ==>
      var o := OrientationOf(img.metadata).value;
      && (render(img.image, o).None? ==> r == Failure(UnableToCreateCGImage))
      && (render(img.image, o).Some? ==> r.Success? && r.value.image == render(img.image, o).value)
  {
    match OrientationOf(img.metadata)
    case None => Success(img)
    case Some(o) =>
      match render(img.image, o)
      case None => Failure(UnableToCreateCGImage)
      case Some(newImage) =>
        var newMetadata := img.metadata[OrientationKey := UInt32Value(Up.RawValue())];
        Success(CapturedImage(newImage, newMetadata))
  }

  /** After a successful `oriented()`, the orientation is `up` (or absent, when
      the image was returned untouched) and every other metadata entry is
      kept. */
  lemma OrientedMetadata(img: CapturedImage, render: (Image, Orientation) -> Option<Image>)
    requires Oriented(img, render).Success?
    ensures var m := Oriented(img, render).value.metadata;
      && (OrientationOf(img.metadata).Some? ==> OrientationOf(m) == Some(Up))
      && (OrientationOf(img.metadata).None? ==> m == img.metadata)
      && m.Keys - {OrientationKey} == img.metadata.Keys - {OrientationKey}
      && forall k :: k in m && k != OrientationKey ==> m[k] == img.metadata[k]
  {
    if OrientationOf(img.metadata).Some? {
      var m := Oriented(img, render).value.metadata;
      assert m[OrientationKey] == UInt32Value(1);
    }
  }

  /** Orienting an image twice leaves the same metadata as orienting it
      once. */
  lemma OrientedTwice(img: CapturedImage, render: (Image, Orientation) -> Option<Image>)
    requires Oriented(img, render).Success?
    requires Oriented(Oriented(img, render).value, render).Success?
    ensures Oriented(Oriented(img, render).value, render).value.metadata == Oriented(img, render).value.metadata
  {
    var once := Oriented(img, render).value;
    OrientedMetadata(img, render);
    if OrientationOf(img.metadata).Some? {
      assert OrientationOf(once.metadata) == Some(Up);
      assert once.metadata[OrientationKey] == UInt32Value(1);
      assert once.metadata[OrientationKey := UInt32Value(1)] == once.metadata;
    }
  }

  /** `centerSquared()`: the platform crops the image to the centre square of
      its full rectangle; a failed crop is `unableToCropCGImage`. The metadata
      is kept as it is. */
  function CenterSquared(img: CapturedImage, cropping: (Image, Rect) -> Option<Image>)
    : (r: Result<CapturedImage, TransformationError>)
    ensures var rect := CenterSquare(Rect(0.0, 0.0, img.image.width as real, img.image.height as real));
      && (cropping(img.image, rect).None? ==> r == Failure(UnableToCropCGImage))
      && (cropping(img.image, rect).Some? ==>
            r == Success(CapturedImage(cropping(img.image, rect).value, img.metadata)))
  {
    var imageSize := Rect(0.0, 0.0, img.image.width as real, img.image.height as real);
    match cropping(img.image, CenterSquare(imageSize))
    case None => Failure(UnableToCropCGImage)
    case Some(newImage) => Success(CapturedImage(newImage, img.metadata))
  }

  /** The normalisation applied to every captured photo: `oriented()` then
      `centerSquared()`, the first error stopping it. */
  function Normalized(img: CapturedImage, render: (Image, Orientation) -> Option<Image>,
                      cropping: (Image, Rect) -> Option<Image>)
    : (r: Result<CapturedImage, TransformationError>)
    ensures r.Success? <==>
      Oriented(img, render).Success? && CenterSquared(Oriented(img, render).value, cropping).Success?
    ensures r.Failure? ==> (r.error == UnableToCreateCGImage <==> Oriented(img, render).Failure?)
  {
    match Oriented(img, render)
    case Failure(e) => Failure(e)
    case Success(upright) => CenterSquared(upright, cropping)
  }

  /** A normalised photo is upright, unless it had no valid orientation tag,
      in which case its metadata is untouched. */
  lemma NormalizedIsUpright(img: CapturedImage, render: (Image, Orientation) -> Option<Image>,
                            cropping: (Image, Rect) -> Option<Image>)
    requires Normalized(img, render, cropping).Success?
    ensures var m := Normalized(img, render, cropping).value.metadata;
      && (OrientationOf(img.metadata).Some? ==> OrientationOf(m) == Some(Up))
      && (OrientationOf(img.metadata).None? ==> m == img.metadata)
  {
    OrientedMetadata(img, render);
  }
}
