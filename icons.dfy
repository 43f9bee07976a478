/**
 * The conversion of a 24-bit RGB image into 32-bit RGBA pixel data that
 * CreateCursor and SetWindowIcon (TRAP/src/Window/WindowingAPI.cpp) perform
 * before handing the image to the platform, and the checks they apply to
 * the image first.
 */
module Icons {

  import opened Ints

  /** The pixel formats of an image that the icon code tells apart. */
  datatype PixelFormat = RGB | RGBA | OtherFormat

  /** The parts of an image the icon code looks at. Pixels are stored row
      by row, bitsPerPixel / 8 bytes each. */
  datatype Image = Image(width: nat, height: nat, hdr: bool, bitsPerPixel: nat, format: PixelFormat,
                         pixels: seq<uint8>)

  /** The images CreateCursor and SetWindowIcon accept: not HDR, and RGB
      with 24 bits per pixel or RGBA with 32. */
  predicate Accepted(image: Image)
  {
    !image.hdr && ((image.format == RGB && image.bitsPerPixel == 24) || (image.format == RGBA && image.bitsPerPixel == 32))
  }

  /** What the image class guarantees of 24-bit RGB data: three bytes per
      pixel. */
  predicate PixelsMatchFormat(image: Image)
  {
    image.format == RGB && image.bitsPerPixel == 24 ==> |image.pixels| % 3 == 0
  }

  /** The checks shared by CreateCursor and SetWindowIcon, in their order:
      an HDR image, more than 32 bits per pixel, and anything but the
      accepted formats are refused, each with its own message under the
      caller's prefix ("[Cursor]" or "[Icon]"). */
  function ImageRejection(prefix: string, image: Image): (r: Option<string>)
    ensures r.None? <==> Accepted(image)
    ensures image.hdr ==> r == Some(prefix + " HDR is unsupported as icon!")
    ensures !image.hdr && image.bitsPerPixel > 32 ==> r == Some(prefix + " BPP > 32 is unsupported as icon!")
    ensures !image.hdr && image.bitsPerPixel <= 32 && !Accepted(image) ==>
      r == Some(prefix + " Unsupported BPP or format used!")
  {
    if image.hdr then Some(prefix + " HDR is unsupported as icon!")
    else if image.bitsPerPixel > 32 then Some(prefix + " BPP > 32 is unsupported as icon!")
    else if !Accepted(image) then Some(prefix + " Unsupported BPP or format used!")
    else None
  }

  datatype Option<T> = None | Some(value: T)

  /** The alpha byte of an opaque pixel. */
  const Opaque: uint8 := 255

  /** RGBA data of RGB data: every three bytes are followed by an opaque
      alpha byte. */
  function RgbToRgba(rgb: seq<uint8>): (rgba: seq<uint8>)
    requires |rgb| % 3 == 0
    ensures |rgba| == |rgb| / 3 * 4
    decreases |rgb|
  {
    if |rgb| == 0 then [] else RgbToRgba(rgb[..|rgb| - 3]) + rgb[|rgb| - 3..] + [Opaque]
  }

  /** RGB data of RGBA data: the alpha byte of every pixel is dropped. */
  function RgbaToRgb(rgba: seq<uint8>): (rgb: seq<uint8>)
    requires |rgba| % 4 == 0
    ensures |rgb| == |rgba| / 4 * 3
    decreases |rgba|
  {
    if |rgba| == 0 then [] else RgbaToRgb(rgba[..|rgba| - 4]) + rgba[|rgba| - 4..|rgba| - 1]
  }

  /** Dropping the alpha bytes gives back the RGB data. */
  lemma {:induction false} RgbaToRgbInvertsRgbToRgba(rgb: seq<uint8>)
    requires |rgb| % 3 == 0
    ensures RgbaToRgb(RgbToRgba(rgb)) == rgb
    decreases |rgb|
  {
    if |rgb| > 0 {
      var front := rgb[..|rgb| - 3];
      var rgba := RgbToRgba(rgb);
      RgbaToRgbInvertsRgbToRgba(front);
      assert rgba[..|rgba| - 4] == RgbToRgba(front);
      assert rgba[|rgba| - 4..|rgba| - 1] == rgb[|rgb| - 3..];
      assert front + rgb[|rgb| - 3..] == rgb;
    }
  }

  /** Pixel k of the RGBA data holds the colour of pixel k of the RGB data
      and is opaque. */
  lemma {:induction false} RgbToRgbaPixel(rgb: seq<uint8>, k: nat)
    requires |rgb| % 3 == 0 && k < |rgb| / 3
    ensures RgbToRgba(rgb)[4 * k..4 * k + 3] == rgb[3 * k..3 * k + 3]
    ensures RgbToRgba(rgb)[4 * k + 3] == 255
    decreases |rgb|
  {
    var front := rgb[..|rgb| - 3];
    if k < |front| / 3 {
      RgbToRgbaPixel(front, k);
      var r, f := RgbToRgba(rgb), RgbToRgba(front);
      assert r == f + rgb[|rgb| - 3..] + [Opaque];
      assert 4 * k + 4 <= |f|;
      assert r[4 * k..4 * k + 3] == f[4 * k..4 * k + 3];
      assert r[4 * k + 3] == f[4 * k + 3];
    } else {
      assert 4 * k == |RgbToRgba(front)|;
    }
  }

  /** The RGBA data as the conversion loop of CreateCursor and SetWindowIcon
      leaves it: the loop writes three colour bytes and an alpha byte per
      pixel but advances its output position by three only, so each pixel's
      alpha byte is overwritten by the next pixel's red byte. What remains is
      the RGB data unchanged, a single 255 after it and zero bytes up to the
      allocated size. */
  function AsWrittenLayout(rgb: seq<uint8>): seq<uint8>
    requires |rgb| % 3 == 0
  {
    if |rgb| == 0 then [] else rgb + [Opaque] + seq(|rgb| / 3 - 1, _ => 0)
  }

  /** The conversion loop as the source writes it, over an output buffer of
      one byte more per pixel than the input, zero-initialised. */
  method ConvertAsWritten(rgb: seq<uint8>) returns (rgba: array<uint8>)
    requires |rgb| % 3 == 0
    ensures rgba.Length == |rgb| / 3 * 4
    ensures rgba[..] == AsWrittenLayout(rgb)
  {
    rgba := new uint8[|rgb| + |rgb| / 3](_ => 0);
    var i := 0;
    var pixelCount := 0;
    ghost var k := 0;
    while i < |rgb|
      invariant i <= |rgb| && i == 3 * k && pixelCount == i
      invariant rgba[..i] == rgb[..i]
      invariant i > 0 ==> rgba[i] == 255
      invariant forall j :: i < j < rgba.Length ==> rgba[j] == 0
    {
      rgba[pixelCount] := rgb[i];
      i, pixelCount := i + 1, pixelCount + 1;
      rgba[pixelCount] := rgb[i];
      i, pixelCount := i + 1, pixelCount + 1;
      rgba[pixelCount] := rgb[i];
      pixelCount := pixelCount + 1;
      rgba[pixelCount] := 255;
      i, k := i + 1, k + 1;
    }
    if |rgb| > 0 {
      assert rgba[..] == rgba[..|rgb|] + [rgba[|rgb|]] + rgba[|rgb| + 1..];
    } else {
      assert rgba[..] == [];
    }
  }

  /** With two pixels or more, the loop's output is not the RGBA data of the
      image: the last pixel's alpha byte is zero. */
  lemma AsWrittenLosesAlpha(rgb: seq<uint8>)
    requires |rgb| % 3 == 0 && |rgb| >= 6
    ensures AsWrittenLayout(rgb)[|rgb| / 3 * 4 - 1] == 0
    ensures RgbToRgba(rgb)[|rgb| / 3 * 4 - 1] == 255
    ensures AsWrittenLayout(rgb) != RgbToRgba(rgb)
  {
    RgbToRgbaPixel(rgb, |rgb| / 3 - 1);
  }

  /** The conversion loop as intended: four output bytes per pixel. */
  method Convert(rgb: seq<uint8>) returns (rgba: array<uint8>)
    requires |rgb| % 3 == 0
    ensures rgba.Length == |rgb| / 3 * 4
    ensures rgba[..] == RgbToRgba(rgb)
  {
    rgba := new uint8[|rgb| + |rgb| / 3](_ => 0);
    var i := 0;
    var pixelCount := 0;
    ghost var k := 0;
    while i < |rgb|
      invariant i <= |rgb| && i == 3 * k && pixelCount == 4 * k
      invariant rgba[..pixelCount] == RgbToRgba(rgb[..i])
    {
      ghost var before := rgba[..pixelCount];
      rgba[pixelCount] := rgb[i];
      rgba[pixelCount + 1] := rgb[i + 1];
      rgba[pixelCount + 2] := rgb[i + 2];
      rgba[pixelCount + 3] := 255;
      assert rgb[..i + 3][..i] == rgb[..i];
      assert rgba[..pixelCount + 4] == before + rgb[i..i + 3] + [Opaque];
      i, pixelCount, k := i + 3, pixelCount + 4, k + 1;
    }
    assert rgb[..i] == rgb;
    assert rgba[..] == rgba[..pixelCount];
  }

  /** The RGBA data an accepted image stands for, as evidently intended:
      RGB data gains an opaque alpha byte per pixel, RGBA data is taken as
      it is. */
  function RgbaOf(image: Image): (rgba: seq<uint8>)
    requires Accepted(image) && PixelsMatchFormat(image)
    ensures image.format == RGB ==> |rgba| % 4 == 0 && RgbaToRgb(rgba) == image.pixels
    ensures image.format == RGBA ==> rgba == image.pixels
  {
    if image.format == RGB then
      RgbaToRgbInvertsRgbToRgba(image.pixels);
      RgbToRgba(image.pixels)
    else image.pixels
  }

  /** The pixel data SetWindowIcon hands to the platform for an accepted
      image, as the source computes it: RGB data in the layout the
      conversion loop leaves, RGBA data as it is. It has the length of the
      intended RGBA data, and equals it exactly for RGBA images and for RGB
      images of at most one pixel. */
  function AsWrittenData(image: Image): (data: seq<uint8>)
    requires Accepted(image) && PixelsMatchFormat(image)
    ensures |data| == |RgbaOf(image)|
    ensures data == RgbaOf(image) <==> image.format == RGBA || |image.pixels| <= 3
  {
    if image.format == RGB then
      AsWrittenLayoutAgreement(image.pixels);
      AsWrittenLayout(image.pixels)
    else image.pixels
  }

  /** The as-written layout has the length of the RGBA data, and equals it
      exactly for at most one pixel. */
  lemma AsWrittenLayoutAgreement(rgb: seq<uint8>)
    requires |rgb| % 3 == 0
    ensures |AsWrittenLayout(rgb)| == |RgbToRgba(rgb)|
    ensures AsWrittenLayout(rgb) == RgbToRgba(rgb) <==> |rgb| <= 3
  {
    var n := |rgb| / 3;
    assert |rgb| == 3 * n;
    if n > 0 {
      assert |AsWrittenLayout(rgb)| == 3 * n + 1 + (n - 1) == 4 * n;
    }
    if |rgb| >= 6 {
      AsWrittenLosesAlpha(rgb);
    } else if |rgb| == 3 {
      assert RgbToRgba(rgb) == RgbToRgba(rgb[..0]) + rgb[0..] + [Opaque];
      assert AsWrittenLayout(rgb) == rgb + [Opaque];
    } else {
      assert rgb == [];
    }
  }

  /** The pixel data handed to the platform for an accepted image, as the
      source computes it: RGB data goes through the conversion loop as
      written. */
  method PlatformPixels(image: Image) returns (rgba: seq<uint8>)
    requires Accepted(image) && PixelsMatchFormat(image)
    ensures rgba == AsWrittenData(image)
  {
    if image.format == RGB {
      var converted := ConvertAsWritten(image.pixels);
      rgba := converted[..];
    } else {
      rgba := image.pixels;
    }
  }

  /** The pixel data for the platform as evidently intended: RGB data goes
      through the corrected conversion loop. */
  method IntendedPixels(image: Image) returns (rgba: seq<uint8>)
    requires Accepted(image) && PixelsMatchFormat(image)
    ensures rgba == RgbaOf(image)
  {
    if image.format == RGB {
      var converted := Convert(image.pixels);
      rgba := converted[..];
    } else {
      rgba := image.pixels;
    }
  }
}
