/**
 * The per-pixel passes of the three image transforms: grayscale, the vessel
 * heatmap and the simulated Grad-CAM overlay. Each rewrites the pixel data of
 * the decoded image (an ImageData's Uint8ClampedArray, `4 * width * height`
 * bytes) in place, four bytes (R, G, B, A) at a time; every value written goes
 * through ToUint8Clamp, as a Uint8ClampedArray store does. Only the byte array
 * matters to the passes, so the model takes it alone.
 */
module ImageProcessing {
  import opened JsNumber
  import opened PixelBuffer

  function WithAlpha(c: Rgb, a: Byte): Pixel {
    Pixel(c.r, c.g, c.b, a)
  }

  // ---------------------------------------------------------------------
  // Grayscale

  /**
   * Grayscale of one pixel: R, G and B all receive the stored unweighted mean;
   * alpha is kept. A third of an integer is never halfway between two
   * integers, so the stored mean is the exact mean rounded to nearest.
   */
  function GrayPixel(p: Pixel): (q: Pixel)
    ensures var v := (p.r + p.g + p.b + 1) / 3; q == Pixel(v, v, v, p.a)
  {
    RoundedThird(p.r + p.g + p.b);
    var avg := Finite((p.r as int + p.g + p.b) as real / 3.0);
    Pixel(ToUint8Clamp(avg), ToUint8Clamp(avg), ToUint8Clamp(avg), p.a)
  }

  function GrayscaleBuffer(s: seq<Byte>): (r: seq<Byte>)
    requires |s| % 4 == 0
    ensures |r| == |s|
  {
    MapPixels(s, GrayPixel)
  }

  method ConvertToGrayscale(data: array<Byte>)
    requires data.Length % 4 == 0
    modifies data
    ensures data[..] == GrayscaleBuffer(old(data[..]))
  {
    ghost var s := data[..];
    MapPixelsWitness(s, GrayPixel);
    ghost var target :| MapsPixels(s, target, GrayPixel);
    var i := 0;
    ghost var k := 0;
    while i < data.Length
      invariant 0 <= i <= data.Length && i == 4 * k
      invariant forall j :: 0 <= j < i ==> data[j] == target[j]
      invariant forall j :: i <= j < data.Length ==> data[j] == s[j]
    {
      ghost var p := PixelAt(s, k);
      assert PixelAt(target, k) == GrayPixel(p);
      assert p == Pixel(data[i], data[i + 1], data[i + 2], data[i + 3]);
      var avg := (data[i] as int + data[i + 1] + data[i + 2]) as real / 3.0;
      // the three stores convert the same value, so they store the same byte
      var v := ToUint8Clamp(Finite(avg));
      assert v == GrayPixel(p).r;
      data[i] := v;
      data[i + 1] := v;
      data[i + 2] := v;
      i, k := i + 4, k + 1;
    }
    assert data[..] == target;
    MapPixelsUnique(s, target, GrayPixel);
  }

  /** Every pixel of the grayscale buffer is its input pixel's rounded mean, three times, with alpha kept. */
  lemma GrayscaleAt(s: seq<Byte>, k: nat)
    requires |s| % 4 == 0 && 4 * k + 4 <= |s|
    ensures var p := PixelAt(s, k); var v := (p.r + p.g + p.b + 1) / 3;
            PixelAt(GrayscaleBuffer(s), k) == Pixel(v, v, v, p.a)
  {
    MapPixelsAt(s, GrayPixel, k);
  }

  /** Applying the grayscale pass twice leaves the same buffer as applying it once. */
  lemma GrayscaleIdempotent(s: seq<Byte>)
    requires |s| % 4 == 0
    ensures GrayscaleBuffer(GrayscaleBuffer(s)) == GrayscaleBuffer(s)
  {
    var t := GrayscaleBuffer(s);
    forall k: nat | 4 * k + 4 <= |t|
      ensures PixelAt(t, k) == GrayPixel(PixelAt(t, k))
    {
      GrayscaleAt(s, k);
      var q := GrayPixel(PixelAt(t, k));
    }
    MapPixelsUnique(t, t, GrayPixel);
  }

  /** A 2x2 image of red, green, blue and white pixels. */
  lemma GrayscaleOfPrimaries()
    ensures GrayscaleBuffer([255, 0, 0, 255, 0, 255, 0, 255, 0, 0, 255, 255, 255, 255, 255, 255])
         == [85, 85, 85, 255, 85, 85, 85, 255, 85, 85, 85, 255, 255, 255, 255, 255]
  {
    var s: seq<Byte> := [255, 0, 0, 255, 0, 255, 0, 255, 0, 0, 255, 255, 255, 255, 255, 255];
    var t: seq<Byte> := [85, 85, 85, 255, 85, 85, 85, 255, 85, 85, 85, 255, 255, 255, 255, 255];
    forall k: nat | 4 * k + 4 <= |s|
      ensures PixelAt(t, k) == GrayPixel(PixelAt(s, k))
    {
      var p := PixelAt(s, k);
      var q := GrayPixel(p);
      assert p.r + p.g + p.b == 255 || p.r + p.g + p.b == 765;
    }
    MapPixelsUnique(s, t, GrayPixel);
  }

  // ---------------------------------------------------------------------
  // Vessel heatmap

  const Red := Rgb(255, 0, 0)
  const Orange := Rgb(255, 165, 0)
  const Yellow := Rgb(255, 255, 0)
  const Blue := Rgb(0, 0, 255)
  const Black := Rgb(0, 0, 0)

  /** The flat colour of a vessel probability, by the strict thresholds 180, 150, 120 and 90. */
  function HeatmapColour(vesselProbability: int): (c: Rgb)
    ensures 0 <= vesselProbability <= 255 ==> c == HeatmapBand(255 - vesselProbability)
  {
    if vesselProbability > 180 then Red
    else if vesselProbability > 150 then Orange
    else if vesselProbability > 120 then Yellow
    else if vesselProbability > 90 then Blue
    else Black
  }

  /** Heatmap of one pixel: the vessel probability is the inverted green byte; alpha is kept. */
  function HeatmapPixel(p: Pixel): (q: Pixel)
    ensures q == WithAlpha(HeatmapBand(p.g), p.a)
  {
    WithAlpha(HeatmapColour(255 - p.g), p.a)
  }

  function HeatmapBuffer(s: seq<Byte>): (r: seq<Byte>)
    requires |s| % 4 == 0
    ensures |r| == |s|
  {
    MapPixels(s, HeatmapPixel)
  }

  /** The same five bands stated directly on the green byte. */
  function HeatmapBand(g: Byte): (c: Rgb)
    ensures c in {Red, Orange, Yellow, Blue, Black}
  {
    if g < 75 then Red
    else if g < 105 then Orange
    else if g < 135 then Yellow
    else if g < 165 then Blue
    else Black
  }

  method CreateHeatmap(data: array<Byte>)
    requires data.Length % 4 == 0
    modifies data
    ensures data[..] == HeatmapBuffer(old(data[..]))
  {
    ghost var s := data[..];
    MapPixelsWitness(s, HeatmapPixel);
    ghost var target :| MapsPixels(s, target, HeatmapPixel);
    var i := 0;
    ghost var k := 0;
    while i < data.Length
      invariant 0 <= i <= data.Length && i == 4 * k
      invariant forall j :: 0 <= j < i ==> data[j] == target[j]
      invariant forall j :: i <= j < data.Length ==> data[j] == s[j]
    {
      ghost var p := PixelAt(s, k);
      assert PixelAt(target, k) == HeatmapPixel(p);
      assert p == Pixel(data[i], data[i + 1], data[i + 2], data[i + 3]);
      var g := data[i + 1];
      var vesselProbability := 255 - g;
      if vesselProbability > 180 {
        data[i], data[i + 1], data[i + 2] := 255, 0, 0;
      } else if vesselProbability > 150 {
        data[i], data[i + 1], data[i + 2] := 255, 165, 0;
      } else if vesselProbability > 120 {
        data[i], data[i + 1], data[i + 2] := 255, 255, 0;
      } else if vesselProbability > 90 {
        data[i], data[i + 1], data[i + 2] := 0, 0, 255;
      } else {
        data[i], data[i + 1], data[i + 2] := 0, 0, 0;
      }
      i, k := i + 4, k + 1;
    }
    assert data[..] == target;
    MapPixelsUnique(s, target, HeatmapPixel);
  }

  /**
   * Every pixel of the heatmap takes the flat colour of its input's green
   * band, whatever its red and blue bytes, and keeps its alpha.
   */
  lemma HeatmapAt(s: seq<Byte>, k: nat)
    requires |s| % 4 == 0 && 4 * k + 4 <= |s|
    ensures PixelAt(HeatmapBuffer(s), k) == WithAlpha(HeatmapBand(PixelAt(s, k).g), PixelAt(s, k).a)
  {
    MapPixelsAt(s, HeatmapPixel, k);
  }

  /** An image with no green at all comes out entirely red, alpha untouched. */
  lemma HeatmapOfZeroGreen(s: seq<Byte>)
    requires |s| % 4 == 0
    requires forall k: nat :: 4 * k + 4 <= |s| ==> PixelAt(s, k).g == 0
    ensures forall k: nat :: 4 * k + 4 <= |s| ==> PixelAt(HeatmapBuffer(s), k) == Pixel(255, 0, 0, PixelAt(s, k).a)
  {
    forall k: nat | 4 * k + 4 <= |s|
      ensures PixelAt(HeatmapBuffer(s), k) == Pixel(255, 0, 0, PixelAt(s, k).a)
    {
      HeatmapAt(s, k);
    }
  }

  // ---------------------------------------------------------------------
  // Simulated Grad-CAM

  const CamBlue := Rgb(59, 76, 192)
  const CamIndigo := Rgb(68, 90, 204)
  const CamCyanGreen := Rgb(123, 204, 196)
  const CamRed := Rgb(255, 0, 0)

  /** Pass 1 value of a pixel: its green byte as a fraction of 255. */
  function Intensity(p: Pixel): real {
    p.g as real / 255.0
  }

  /**
   * Pass 2 value: ReLU, then division by the image's largest intensity. A
   * negative value becomes 0; with a zero maximum, every value that is not
   * positive becomes 0 / 0, that is NaN.
   */
  function Normalize(x: Num, maxIntensity: real): (r: Num)
    ensures x.Finite? && x.v >= 0.0 && maxIntensity != 0.0 ==> r == Finite(x.v / maxIntensity)
    ensures x.Finite? && x.v < 0.0 && maxIntensity != 0.0 ==> r == Finite(0.0)
    ensures x.Finite? && x.v <= 0.0 && maxIntensity == 0.0 ==> r.NaN?
    ensures x.NaN? ==> r.NaN?
  {
    Div(Max(Finite(0.0), x), Finite(maxIntensity))
  }

  /**
   * The four colour bands, compared with `<` to 0.25, 0.5 and 0.75. NaN fails
   * every comparison and so lands in the hot band.
   */
  function CamColour(n: Num): (c: Rgb)
    ensures c in {CamBlue, CamIndigo, CamCyanGreen, CamRed}
    ensures n.NaN? || n.PosInf? ==> c == CamRed
    ensures n.Finite? ==> (c == CamBlue <==> n.v < 0.25) && (c == CamRed <==> 0.75 <= n.v)
  {
    if Less(n, Finite(0.25)) then CamBlue
    else if Less(n, Finite(0.5)) then CamIndigo
    else if Less(n, Finite(0.75)) then CamCyanGreen
    else CamRed
  }

  /**
   * Alpha of a normalised intensity: `Math.floor(n * 255)`, stored through
   * ToUint8Clamp. A value in [0, 1] gives the integer part of `255 n`; NaN gives 0.
   */
  function CamAlpha(n: Num): (a: Byte)
    ensures n.NaN? ==> a == 0
    ensures n.Finite? && 0.0 <= n.v <= 1.0 ==> a == (255.0 * n.v).Floor
  {
    FloorStoredExactly(Mul(n, Finite(255.0)));
    ToUint8Clamp(Floor(Mul(n, Finite(255.0))))
  }

  /** The pixel the third pass writes for a normalised intensity. */
  function CamPixel(n: Num): Pixel {
    WithAlpha(CamColour(n), CamAlpha(n))
  }

  function GradCamPixel(p: Pixel, maxIntensity: real): Pixel {
    CamPixel(Normalize(Finite(Intensity(p)), maxIntensity))
  }

  function GradCamMap(maxIntensity: real): Pixel -> Pixel {
    p => GradCamPixel(p, maxIntensity)
  }

  /** The largest green byte of the buffer, or 0 when it holds no pixel. */
  function MaxGreen(s: seq<Byte>): Byte
    requires |s| % 4 == 0
    decreases |s|
  {
    if s == [] then 0
    else
      var g := PixelAt(s, |s| / 4 - 1).g;
      var m := MaxGreen(s[..|s| - 4]);
      if g > m then g else m
  }

  /** MaxGreen bounds every green byte of the buffer and is one of them, unless it is 0. */
  lemma {:induction false} MaxGreenIsMaximum(s: seq<Byte>)
    requires |s| % 4 == 0
    ensures forall k: nat :: 4 * k + 4 <= |s| ==> PixelAt(s, k).g <= MaxGreen(s)
    ensures MaxGreen(s) == 0 || exists k: nat :: 4 * k + 4 <= |s| && PixelAt(s, k).g == MaxGreen(s)
    decreases |s|
  {
    if s != [] {
      var front := s[..|s| - 4];
      MaxGreenIsMaximum(front);
      assert forall k: nat :: 4 * k + 4 <= |front| ==> PixelAt(front, k) == PixelAt(s, k);
    }
  }

  /** No green byte exceeds MaxGreen. */
  lemma MaxGreenBounds(s: seq<Byte>, k: nat)
    requires |s| % 4 == 0 && 4 * k + 4 <= |s|
    ensures PixelAt(s, k).g <= MaxGreen(s)
  {
    MaxGreenIsMaximum(s);
  }

  /** One step of the running maximum: the next pixel's green byte replaces it only when strictly larger. */
  lemma MaxGreenStep(s: seq<Byte>, k: nat)
    requires 4 * k + 4 <= |s|
    ensures var m := MaxGreen(s[..4 * k]); MaxGreen(s[..4 * k + 4]) == if s[4 * k + 1] > m then s[4 * k + 1] else m
  {
    var t := s[..4 * k + 4];
    assert t[..|t| - 4] == s[..4 * k];
    assert |t| / 4 - 1 == k;
    assert PixelAt(t, k).g == s[4 * k + 1];
  }

  /** The largest pass-1 intensity of an image: its largest green byte over 255. */
  function PeakIntensity(s: seq<Byte>): real
    requires |s| % 4 == 0
  {
    MaxGreen(s) as real / 255.0
  }

  function GradCamBuffer(s: seq<Byte>): (r: seq<Byte>)
    requires |s| % 4 == 0
    ensures |r| == |s|
  {
    MapPixels(s, GradCamMap(PeakIntensity(s)))
  }

  /**
   * The pass-1 maximum bounds every intensity, is one of them unless it is 0,
   * and lies in [0, 1].
   */
  lemma PeakIntensityIsMaximum(s: seq<Byte>)
    requires |s| % 4 == 0
    ensures forall k: nat :: 4 * k + 4 <= |s| ==> Intensity(PixelAt(s, k)) <= PeakIntensity(s)
    ensures PeakIntensity(s) == 0.0 || exists k: nat :: 4 * k + 4 <= |s| && Intensity(PixelAt(s, k)) == PeakIntensity(s)
    ensures 0.0 <= PeakIntensity(s) <= 1.0
  {
    MaxGreenIsMaximum(s);
  }

  /**
   * Pass 1: one intensity per pixel, in pixel order, and the running maximum
   * starting from 0; the maximum bounds every intensity and is one of them,
   * or 0 for an image without pixels or without green.
   */
  method CollectIntensities(data: array<Byte>) returns (intensities: seq<Num>, maxIntensity: real)
    requires data.Length % 4 == 0
    ensures |intensities| == data.Length / 4
    ensures forall k: nat :: k < |intensities| ==> intensities[k] == Finite(Intensity(PixelAt(data[..], k)))
    ensures maxIntensity == PeakIntensity(data[..])
  {
    ghost var s := data[..];
    intensities := [];
    maxIntensity := 0.0;
    ghost var maxG: Byte := 0;
    var i := 0;
    while i < data.Length
      invariant 0 <= i <= data.Length && i == 4 * |intensities|
      invariant forall k: nat :: k < |intensities| ==> intensities[k] == Finite(Intensity(PixelAt(s, k)))
      invariant maxG == MaxGreen(s[..i]) && maxIntensity == maxG as real / 255.0
    {
      MaxGreenStep(s, |intensities|);
      var g := data[i + 1];
      var intensity := g as real / 255.0;
      intensities := intensities + [Finite(intensity)];
      if intensity > maxIntensity {
        maxIntensity := intensity;
        maxG := g;
      }
      i := i + 4;
    }
    assert s[..i] == s;
  }

  /** ReLU then rescale keeps an intensity between 0 and the maximum inside [0, 1]. */
  lemma NormalizeInUnit(x: real, maxIntensity: real)
    requires 0.0 <= x <= maxIntensity && maxIntensity > 0.0
    ensures Normalize(Finite(x), maxIntensity).Finite?
    ensures 0.0 <= Normalize(Finite(x), maxIntensity).v <= 1.0
  {
    assert Max(Finite(0.0), Finite(x)) == Finite(x);
    var q := x / maxIntensity;
    assert q * maxIntensity == x;
    assert (1.0 - q) * maxIntensity == maxIntensity - x;
  }

  /**
   * Pass 2: every intensity is replaced by its normalised value. With a
   * positive maximum the values land in [0, 1]; with a zero maximum every
   * non-positive intensity becomes 0/0, that is NaN.
   */
  method NormalizeIntensities(intensities: seq<Num>, maxIntensity: real) returns (normalized: seq<Num>)
    ensures |normalized| == |intensities|
    ensures forall k :: 0 <= k < |intensities| ==> normalized[k] == Normalize(intensities[k], maxIntensity)
    ensures maxIntensity > 0.0 ==>
      forall k :: 0 <= k < |intensities| && intensities[k].Finite? && 0.0 <= intensities[k].v <= maxIntensity ==>
        normalized[k].Finite? && 0.0 <= normalized[k].v <= 1.0
    ensures maxIntensity == 0.0 ==>
      forall k :: 0 <= k < |intensities| && intensities[k].Finite? && intensities[k].v <= 0.0 ==> normalized[k].NaN?
  {
    normalized := intensities;
    for i := 0 to |normalized|
      invariant |normalized| == |intensities|
      invariant forall k :: 0 <= k < i ==> normalized[k] == Normalize(intensities[k], maxIntensity)
      invariant forall k :: i <= k < |intensities| ==> normalized[k] == intensities[k]
    {
      normalized := normalized[i := Div(Max(Finite(0.0), normalized[i]), Finite(maxIntensity))];
    }
    forall k | 0 <= k < |intensities| && intensities[k].Finite? && 0.0 <= intensities[k].v <= maxIntensity && maxIntensity > 0.0
      ensures normalized[k].Finite? && 0.0 <= normalized[k].v <= 1.0
    {
      NormalizeInUnit(intensities[k].v, maxIntensity);
    }
  }

  /** Some buffer holds, pixel by pixel, the colour-mapped pixels of `intensities`. */
  lemma CamBufferWitness(intensities: seq<Num>)
    ensures exists t :: |t| == 4 * |intensities| && forall k: nat :: k < |intensities| ==> PixelAt(t, k) == CamPixel(intensities[k])
  {
    var pixels := seq(|intensities|, k requires 0 <= k < |intensities| => CamPixel(intensities[k]));
    TileWitness(pixels);
    var t :| |t| == 4 * |pixels| && forall k: nat :: k < |pixels| ==> PixelAt(t, k) == pixels[k];
    assert forall k: nat :: k < |intensities| ==> PixelAt(t, k) == CamPixel(intensities[k]);
  }

  /**
   * Pass 3: pixel `k` is overwritten, all four bytes, with the colour band
   * and the alpha of the `k`-th normalised intensity.
   */
  method ApplyColourMap(data: array<Byte>, intensities: seq<Num>)
    requires data.Length == 4 * |intensities|
    modifies data
    ensures forall k: nat :: k < |intensities| ==> PixelAt(data[..], k) == CamPixel(intensities[k])
  {
    CamBufferWitness(intensities);
    ghost var target :| |target| == data.Length && forall k: nat :: k < |intensities| ==> PixelAt(target, k) == CamPixel(intensities[k]);
    var i := 0;
    ghost var k := 0;
    while i < data.Length
      invariant 0 <= i <= data.Length && i == 4 * k
      invariant forall j :: 0 <= j < i ==> data[j] == target[j]
    {
      assert i / 4 == k;
      var intensity := intensities[i / 4];
      assert PixelAt(target, k) == CamPixel(intensity);
      var r: Byte, g: Byte, b: Byte := 0, 0, 0;
      if Less(intensity, Finite(0.25)) {
        r, g, b := 59, 76, 192;
      } else if Less(intensity, Finite(0.5)) {
        r, g, b := 68, 90, 204;
      } else if Less(intensity, Finite(0.75)) {
        r, g, b := 123, 204, 196;
      } else {
        r, g, b := 255, 0, 0;
      }
      data[i] := r;
      data[i + 1] := g;
      data[i + 2] := b;
      data[i + 3] := ToUint8Clamp(Floor(Mul(intensity, Finite(255.0))));
      i, k := i + 4, k + 1;
    }
    assert data[..] == target;
  }

  method CreateGradCam(data: array<Byte>)
    requires data.Length % 4 == 0
    modifies data
    ensures data[..] == GradCamBuffer(old(data[..]))
  {
    ghost var s := data[..];
    var intensities, maxIntensity := CollectIntensities(data);
    intensities := NormalizeIntensities(intensities, maxIntensity);
    ApplyColourMap(data, intensities);
    forall k: nat | 4 * k + 4 <= |s|
      ensures PixelAt(data[..], k) == GradCamMap(maxIntensity)(PixelAt(s, k))
    {
      assert PixelAt(data[..], k) == CamPixel(intensities[k]);
    }
    MapPixelsUnique(s, data[..], GradCamMap(maxIntensity));
  }

  /**
   * The colour band in integer terms: with the largest green byte `maxG`
   * positive, the normalised intensity is `g / maxG`, so each `<` test against
   * a quarter is a comparison of integer multiples.
   */
  function CamBand(g: Byte, maxG: Byte): Rgb {
    if 4 * g < maxG then CamBlue
    else if 2 * g < maxG then CamIndigo
    else if 4 * g < 3 * maxG then CamCyanGreen
    else CamRed
  }

  /** With a positive peak, ReLU and rescaling turn `g / 255` into `g / maxG`. */
  lemma NormalizeByGreen(g: Byte, maxG: Byte)
    requires 0 < maxG
    ensures Normalize(Finite(g as real / 255.0), maxG as real / 255.0) == Finite(g as real / maxG as real)
  {
    assert Max(Finite(0.0), Finite(g as real / 255.0)) == Finite(g as real / 255.0);
  }

  /** The band of `g / maxG` is the integer band. */
  lemma CamColourByGreen(g: Byte, maxG: Byte)
    requires 0 < maxG
    ensures CamColour(Finite(g as real / maxG as real)) == CamBand(g, maxG)
  {
    QuotientLess(g, maxG, 1, 4);
    QuotientLess(g, maxG, 1, 2);
    QuotientLess(g, maxG, 3, 4);
    assert 0.25 == 1 as real / 4 as real && 0.5 == 1 as real / 2 as real && 0.75 == 3 as real / 4 as real;
  }

  /** `Math.floor(g / maxG * 255)` is the integer quotient `255 * g div maxG`. */
  lemma ScaledFloor(g: Byte, maxG: Byte)
    requires 0 < maxG
    ensures Floor(Mul(Finite(g as real / maxG as real), Finite(255.0))) == Finite((255 * g / maxG) as real)
  {
    var x := g as real / maxG as real;
    assert x * 255.0 == (255 * g) as real / maxG as real;
    FloorOfQuotient(255 * g, maxG);
  }

  /** The alpha of `g / maxG` is `255 * g div maxG`, a byte when `g <= maxG`. */
  lemma CamAlphaByGreen(g: Byte, maxG: Byte)
    requires 0 < maxG && g <= maxG
    ensures 0 <= 255 * g / maxG <= 255
    ensures CamAlpha(Finite(g as real / maxG as real)) == 255 * g / maxG
  {
    DivMonotone(255 * g, 255 * maxG, maxG);
    QuotientLess(1, 1, g, maxG);
    ScaledFloor(g, maxG);
  }

  /**
   * With a positive peak, a pixel of green byte `g` gets the integer band and
   * the alpha `255 * g div maxG`.
   */
  lemma GradCamPixelByGreen(p: Pixel, maxG: Byte)
    requires 0 < maxG && p.g <= maxG
    ensures 0 <= 255 * p.g / maxG <= 255
    ensures GradCamPixel(p, maxG as real / 255.0) == WithAlpha(CamBand(p.g, maxG), 255 * p.g / maxG)
  {
    NormalizeByGreen(p.g, maxG);
    CamColourByGreen(p.g, maxG);
    CamAlphaByGreen(p.g, maxG);
  }

  /** With no green anywhere the normalisation is 0 / 0: hot red with alpha 0. */
  lemma GradCamPixelWithoutGreen(p: Pixel)
    requires p.g == 0
    ensures GradCamPixel(p, 0.0) == Pixel(255, 0, 0, 0)
  {
    assert Normalize(Finite(Intensity(p)), 0.0).NaN?;
  }

  /** Pixel `k` of a Grad-CAM image is the Grad-CAM pixel of input pixel `k` under the image's peak. */
  lemma GradCamBufferAt(s: seq<Byte>, k: nat)
    requires |s| % 4 == 0 && 4 * k + 4 <= |s|
    ensures PixelAt(GradCamBuffer(s), k) == GradCamPixel(PixelAt(s, k), PeakIntensity(s))
  {
    var f := GradCamMap(PeakIntensity(s));
    MapPixelsAt(s, f, k);
    assert f(PixelAt(s, k)) == GradCamPixel(PixelAt(s, k), PeakIntensity(s));
  }

  /**
   * Pixel `k` of a Grad-CAM image. With a positive peak it takes the integer
   * band and alpha of its green byte; when no pixel has any green the
   * normalisation is 0 / 0, every band test fails, and the pixel is hot red
   * with alpha 0.
   */
  lemma GradCamAt(s: seq<Byte>, k: nat)
    requires |s| % 4 == 0 && 4 * k + 4 <= |s|
    ensures MaxGreen(s) == 0 ==> PixelAt(GradCamBuffer(s), k) == Pixel(255, 0, 0, 0)
    ensures MaxGreen(s) > 0 ==>
      var p, q := PixelAt(s, k), PixelAt(GradCamBuffer(s), k);
      Rgb(q.r, q.g, q.b) == CamBand(p.g, MaxGreen(s)) && q.a == 255 * p.g / MaxGreen(s)
  {
    if MaxGreen(s) == 0 {
      GradCamAtWithoutGreen(s, k);
    } else {
      GradCamAtByGreen(s, k);
    }
  }

  /** The case of `GradCamAt` without green anywhere. */
  lemma GradCamAtWithoutGreen(s: seq<Byte>, k: nat)
    requires |s| % 4 == 0 && 4 * k + 4 <= |s| && MaxGreen(s) == 0
    ensures PixelAt(GradCamBuffer(s), k) == Pixel(255, 0, 0, 0)
  {
    GradCamBufferAt(s, k);
    MaxGreenBounds(s, k);
    GradCamPixelWithoutGreen(PixelAt(s, k));
  }

  /** The case of `GradCamAt` with a positive peak. */
  lemma GradCamAtByGreen(s: seq<Byte>, k: nat)
    requires |s| % 4 == 0 && 4 * k + 4 <= |s| && MaxGreen(s) > 0
    ensures var p, q := PixelAt(s, k), PixelAt(GradCamBuffer(s), k);
      Rgb(q.r, q.g, q.b) == CamBand(p.g, MaxGreen(s)) && q.a == 255 * p.g / MaxGreen(s)
  {
    GradCamBufferAt(s, k);
    MaxGreenBounds(s, k);
    GradCamPixelByGreen(PixelAt(s, k), MaxGreen(s));
  }

  /** With a positive peak, a greener pixel is never more transparent. */
  lemma GradCamAlphaMonotone(s: seq<Byte>, k1: nat, k2: nat)
    requires |s| % 4 == 0 && 4 * k1 + 4 <= |s| && 4 * k2 + 4 <= |s|
    requires MaxGreen(s) > 0 && PixelAt(s, k1).g <= PixelAt(s, k2).g
    ensures PixelAt(GradCamBuffer(s), k1).a <= PixelAt(GradCamBuffer(s), k2).a
  {
    GradCamAt(s, k1);
    GradCamAt(s, k2);
    DivMonotone(255 * PixelAt(s, k1).g, 255 * PixelAt(s, k2).g, MaxGreen(s));
  }

  /** A pixel carrying the largest green byte, when that is positive, becomes opaque hot red. */
  lemma GradCamBrightestIsOpaqueRed(s: seq<Byte>, k: nat)
    requires |s| % 4 == 0 && 4 * k + 4 <= |s|
    requires PixelAt(s, k).g == MaxGreen(s) > 0
    ensures PixelAt(GradCamBuffer(s), k) == Pixel(255, 0, 0, 255)
  {
    GradCamAt(s, k);
    MulDivCancel(255, MaxGreen(s));
  }

  /** An image whose pixels all share one positive green byte comes out entirely opaque hot red. */
  lemma GradCamUniformGreen(s: seq<Byte>, g: Byte)
    requires |s| % 4 == 0 && |s| > 0 && g > 0
    requires forall k: nat :: 4 * k + 4 <= |s| ==> PixelAt(s, k).g == g
    ensures forall k: nat :: 4 * k + 4 <= |s| ==> PixelAt(GradCamBuffer(s), k) == Pixel(255, 0, 0, 255)
  {
    MaxGreenIsMaximum(s);
    assert PixelAt(s, 0).g == g;
    forall k: nat | 4 * k + 4 <= |s|
      ensures PixelAt(GradCamBuffer(s), k) == Pixel(255, 0, 0, 255)
    {
      GradCamBrightestIsOpaqueRed(s, k);
    }
  }

  /** An image without any green comes out entirely hot red with alpha 0. */
  lemma GradCamWithoutGreen(s: seq<Byte>)
    requires |s| % 4 == 0
    requires forall k: nat :: 4 * k + 4 <= |s| ==> PixelAt(s, k).g == 0
    ensures forall k: nat :: 4 * k + 4 <= |s| ==> PixelAt(GradCamBuffer(s), k) == Pixel(255, 0, 0, 0)
  {
    MaxGreenIsMaximum(s);
    forall k: nat | 4 * k + 4 <= |s|
      ensures PixelAt(GradCamBuffer(s), k) == Pixel(255, 0, 0, 0)
    {
      GradCamAt(s, k);
    }
  }
}
