/** A captured photo: its pixel size, its metadata dictionary, the orientation
    read from the metadata (the Orientation field, tag 274, of section 8 of
    TIFF 6.0, values 1 to 8) and the debug description that summarises it. */
module CapturedImage {
  import opened Wrappers

  type UInt32 = n: int | 0 <= n < 0x1_0000_0000

  /** A metadata value. An entry that bridges to `UInt32` is `UInt32Value`;
      the EXIF sub-dictionary is `Dictionary`, with each of its values kept
      as the text `"\(value)"` renders; every other value is `OtherValue`,
      kept as its rendering. */
  datatype MetaValue =
    | UInt32Value(n: UInt32)
    | Dictionary(entries: map<string, string>)
    | OtherValue(text: string)

  type Metadata = map<string, MetaValue>

  /** The CGImage, reduced to its pixel size. */
  datatype Image = Image(width: nat, height: nat)

  datatype CapturedImage = CapturedImage(image: Image, metadata: Metadata)

  const OrientationKey: string := "Orientation"
  const ExifDictionaryKey: string := "{Exif}"

  /** The EXIF entries the debug description reports, in the order it asks
      for them. */
  const ExifKeys: seq<string> := [
    "ExposureTime", "ISOSpeedRatings", "ISOSpeed", "ShutterSpeedValue",
    "ApertureValue", "BrightnessValue", "FocalLength", "DigitalZoomRatio",
    "FocalLenIn35mmFilm", "LensModel"
  ]

  /** `CGImagePropertyOrientation`. */
  datatype Orientation =
    | Up | UpMirrored | Down | DownMirrored
    | LeftMirrored | Right | RightMirrored | Left
  {
    /** The TIFF tag value of the orientation. */
    function RawValue(): (r: nat)
      ensures 1 <= r <= 8
    {
      match this
      case Up => 1
      case UpMirrored => 2
      case Down => 3
      case DownMirrored => 4
      case LeftMirrored => 5
      case Right => 6
      case RightMirrored => 7
      case Left => 8
    }
  }

  /** `CGImagePropertyOrientation(rawValue:)`: defined exactly on 1 to 8. */
  function OrientationFromRaw(raw: int): (r: Option<Orientation>)
    ensures r.Some? <==> 1 <= raw <= 8
    ensures r.Some? ==> r.value.RawValue() == raw
  {
    if raw == 1 then Some(Up)
    else if raw == 2 then Some(UpMirrored)
    else if raw == 3 then Some(Down)
    else if raw == 4 then Some(DownMirrored)
    else if raw == 5 then Some(LeftMirrored)
    else if raw == 6 then Some(Right)
    else if raw == 7 then Some(RightMirrored)
    else if raw == 8 then Some(Left)
    else None
  }

  /** Every orientation is recovered from its raw value. */
  lemma RawValueRoundTrip(o: Orientation)
    ensures OrientationFromRaw(o.RawValue()) == Some(o)
  {
  }

  /** The `orientation` accessor: nil when the key is missing, when its value
      is not a `UInt32`, or when that number is not a valid orientation. */
  function OrientationOf(metadata: Metadata): (r: Option<Orientation>)
    ensures r.Some? <==>
      OrientationKey in metadata && metadata[OrientationKey].UInt32Value? &&
      1 <= metadata[OrientationKey].n <= 8
    ensures r.Some? ==> r.value.RawValue() == metadata[OrientationKey].n
  {
    if OrientationKey in metadata && metadata[OrientationKey].UInt32Value? then
      OrientationFromRaw(metadata[OrientationKey].n)
    else
      None
  }

  /** The name table of the orientations; `leftMirrored` is spelt
      "leftMifrored", as in the application. */
  function Description(o: Orientation): (name: string)
    ensures name != "unknown"
  {
    match o
    case Up => "up"
    case UpMirrored => "upMirrored"
    case Down => "down"
    case DownMirrored => "downMirrored"
    case LeftMirrored => "leftMifrored"
    case Right => "right"
    case RightMirrored => "rightMirrored"
    case Left => "left"
  }

  /** No two orientations share a name, so a description identifies its
      orientation. */
  lemma DescriptionIsInjective(o1: Orientation, o2: Orientation)
    ensures Description(o1) == Description(o2) <==> o1 == o2
  {
  }

  /** Decimal digits. */
  function DigitChar(d: nat): (c: char)
    requires d < 10
    ensures '0' <= c <= '9'
  {
    ('0' as int + d) as char
  }

  /** The decimal text of a natural number, as string interpolation writes it. */
  function NatToDecimal(n: nat): (s: string)
    ensures |s| >= 1
    ensures forall i :: 0 <= i < |s| ==> '0' <= s[i] <= '9'
    decreases n
  {
    if n < 10 then [DigitChar(n)] else NatToDecimal(n / 10) + [DigitChar(n % 10)]
  }

  /** The number a string of decimal digits denotes. */
  function DecimalValue(s: string): nat
    requires forall i :: 0 <= i < |s| ==> '0' <= s[i] <= '9'
  {
    if s == [] then 0 else 10 * DecimalValue(s[..|s| - 1]) + (s[|s| - 1] as int - '0' as int)
  }

  /** Reading back the decimal text gives the number. */
  lemma {:induction false} DecimalRoundTrip(n: nat)
    ensures DecimalValue(NatToDecimal(n)) == n
    decreases n
  {
    if n >= 10 {
      DecimalRoundTrip(n / 10);
      var s := NatToDecimal(n);
      assert s[..|s| - 1] == NatToDecimal(n / 10);
    }
  }

  /** `debugDescription` of an orientation: its name and its raw value. */
  function OrientationDebugDescription(o: Orientation): (s: string)
    ensures |s| == |Description(o)| + 4
    ensures s[..|Description(o)|] == Description(o) && s[|s| - 1] == ')'
  {
    assert NatToDecimal(o.RawValue()) == [DigitChar(o.RawValue())];
    Description(o) + " (" + NatToDecimal(o.RawValue()) + ")"
  }

  /** The debug description is the name, " (", the raw value as one digit
      and ")". */
  lemma OrientationDebugDescriptionReadsBack(o: Orientation)
    ensures var s, d := OrientationDebugDescription(o), Description(o);
      && |s| == |d| + 4
      && s[..|d|] == d
      && s[|d|..|d| + 2] == " ("
      && s[|s| - 1] == ')'
      && '1' <= s[|s| - 2] <= '8'
      && s[|s| - 2] as int - '0' as int == o.RawValue()
  {
    assert NatToDecimal(o.RawValue()) == [DigitChar(o.RawValue())];
  }

  /** Distinct orientations have distinct debug descriptions. */
  lemma OrientationDebugDescriptionIsInjective(o1: Orientation, o2: Orientation)
    ensures OrientationDebugDescription(o1) == OrientationDebugDescription(o2) <==> o1 == o2
  {
    if OrientationDebugDescription(o1) == OrientationDebugDescription(o2) {
      OrientationDebugDescriptionReadsBack(o1);
      OrientationDebugDescriptionReadsBack(o2);
      RawValueRoundTrip(o1);
      RawValueRoundTrip(o2);
    }
  }

  /** The "WxH" text of the pixel size. */
  function SizeDescription(image: Image): (s: string)
    ensures |s| == |NatToDecimal(image.width)| + 1 + |NatToDecimal(image.height)|
    ensures s[..|NatToDecimal(image.width)|] == NatToDecimal(image.width)
    ensures s[|NatToDecimal(image.width)|] == 'x'
  {
    NatToDecimal(image.width) + "x" + NatToDecimal(image.height)
  }

  /** Reads a "WxH" text back: the part before the first 'x' and the part
      after it, both decimal. */
  function ParseSize(s: string): (r: Option<(nat, nat)>)
  {
    if 'x' !in s then None
    else
      var i := IndexOf(s, 'x');
      var w, h := s[..i], s[i + 1..];
      if |w| > 0 && |h| > 0 && (forall k :: 0 <= k < |w| ==> '0' <= w[k] <= '9')
         && (forall k :: 0 <= k < |h| ==> '0' <= h[k] <= '9')
      then Some((DecimalValue(w), DecimalValue(h)))
      else None
  }

  function IndexOf(s: string, c: char): (i: nat)
    requires c in s
    ensures i < |s| && s[i] == c && c !in s[..i]
  {
    if s[0] == c then 0 else 1 + IndexOf(s[1..], c)
  }

  /** The size text determines the size: it reads back as width and height. */
  lemma SizeDescriptionReadsBack(image: Image)
    ensures ParseSize(SizeDescription(image)) == Some((image.width, image.height))
  {
    var w, h := NatToDecimal(image.width), NatToDecimal(image.height);
    var s := SizeDescription(image);
    assert s[|w|] == 'x';
    assert 'x' !in w by {
      forall k | 0 <= k < |w| ensures w[k] != 'x' { }
    }
    var i := IndexOf(s, 'x');
    assert s[..|w|] == w;
    assert i == |w|;
    assert s[..i] == w && s[i + 1..] == h;
    DecimalRoundTrip(image.width);
    DecimalRoundTrip(image.height);
  }

  /** The orientation part of the debug description: the orientation's own
      debug description, or "?" when there is none. */
  function OrientationText(metadata: Metadata): (t: string)
    ensures t == "?" <==> OrientationOf(metadata).None?
  {
    match OrientationOf(metadata)
    case Some(o) => OrientationDebugDescription(o)
    case None => "?"
  }

  /** The `meta` summary: those of the ten EXIF keys the EXIF dictionary
      holds, with their values; nothing when there is no EXIF dictionary. */
  function SelectedMeta(metadata: Metadata): (meta: map<string, string>)
    ensures forall k <- meta :: k in ExifKeys
    ensures ExifDictionaryKey !in metadata || !metadata[ExifDictionaryKey].Dictionary? ==> meta == map[]
    ensures ExifDictionaryKey in metadata && metadata[ExifDictionaryKey].Dictionary? ==>
      var exif := metadata[ExifDictionaryKey].entries;
      forall k :: k in ExifKeys ==> (k in meta <==> k in exif) && (k in meta ==> meta[k] == exif[k])
  {
    if ExifDictionaryKey in metadata && metadata[ExifDictionaryKey].Dictionary? then
      var exif := metadata[ExifDictionaryKey].entries;
      map k | k in ExifKeys && k in exif :: exif[k]
    else
      map[]
  }

  /** The loop that fills `meta` key by key. */
  method CollectMeta(metadata: Metadata) returns (meta: map<string, string>)
    ensures meta == SelectedMeta(metadata)
  {
    meta := map[];
    if ExifDictionaryKey in metadata && metadata[ExifDictionaryKey].Dictionary? {
      var exif := metadata[ExifDictionaryKey].entries;
      for i := 0 to |ExifKeys|
        invariant meta == map k | k in ExifKeys[..i] && k in exif :: exif[k]
      {
        var key := ExifKeys[i];
        if key in exif {
          meta := meta[key := exif[key]];
        }
        assert ExifKeys[..i + 1] == ExifKeys[..i] + [key];
      }
      assert ExifKeys[..|ExifKeys|] == ExifKeys;
    }
  }

  /** `CapturedImage.debugDescription`. How Swift prints the `meta`
      dictionary is the platform's business: `render` stands for it. The
      closing ")>" is written as the application writes it. */
  method DebugDescription(img: CapturedImage, render: map<string, string> -> string) returns (s: string)
    ensures s == "<CapturedImage " + SizeDescription(img.image) + " " + OrientationText(img.metadata)
                 + " " + render(SelectedMeta(img.metadata)) + ")>"
  {
    var sizeDesc := SizeDescription(img.image);
    var orientationDesc := OrientationText(img.metadata);
    var meta := CollectMeta(img.metadata);
    s := "<CapturedImage " + sizeDesc + " " + orientationDesc + " " + render(meta) + ")>";
  }
}
