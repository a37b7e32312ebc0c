/**
 * An ImageData buffer: interleaved RGBA bytes, four per pixel, pixels in
 * row-major order. The transforms all visit the buffer with stride 4 and
 * rewrite each whole pixel from its own bytes (and, for Grad-CAM, one
 * image-wide statistic); `MapPixels` is the specification of such a pass.
 */
module PixelBuffer {
  import opened JsNumber

  datatype Pixel = Pixel(r: Byte, g: Byte, b: Byte, a: Byte)

  /** An opaque colour without its alpha channel. */
  datatype Rgb = Rgb(r: Byte, g: Byte, b: Byte)

  function Bytes(p: Pixel): (s: seq<Byte>)
    ensures |s| == 4
  {
    [p.r, p.g, p.b, p.a]
  }

  /** Pixel number `k` of a buffer: bytes 4k .. 4k+3. */
  function PixelAt(s: seq<Byte>, k: nat): Pixel
    requires 4 * k + 4 <= |s|
  {
    Pixel(s[4 * k], s[4 * k + 1], s[4 * k + 2], s[4 * k + 3])
  }

  /**
   * The buffer a stride-4 loop leaves behind when it replaces every pixel `p`
   * of `s` by `f(p)`, first pixel first.
   */
  function MapPixels(s: seq<Byte>, f: Pixel -> Pixel): (r: seq<Byte>)
    requires |s| % 4 == 0
    ensures |r| == |s|
    decreases |s|
  {
    if s == [] then []
    else MapPixels(s[..|s| - 4], f) + Bytes(f(PixelAt(s, |s| / 4 - 1)))
  }

  /** Every pixel of the result is `f` of the pixel at the same position in the input. */
  lemma {:induction false} MapPixelsAt(s: seq<Byte>, f: Pixel -> Pixel, k: nat)
    requires |s| % 4 == 0 && 4 * k + 4 <= |s|
    ensures PixelAt(MapPixels(s, f), k) == f(PixelAt(s, k))
    decreases |s|
  {
    var n := |s| / 4;
    var front := s[..|s| - 4];
    var r := MapPixels(s, f);
    assert r == MapPixels(front, f) + Bytes(f(PixelAt(s, n - 1)));
    if k < n - 1 {
      MapPixelsAt(front, f, k);
      assert PixelAt(front, k) == PixelAt(s, k);
      assert PixelAt(r, k) == PixelAt(MapPixels(front, f), k);
    } else {
      assert r[4 * k..] == Bytes(f(PixelAt(s, n - 1)));
    }
  }

  /**
   * Conversely, a buffer whose every pixel is `f` of the input's pixel at the
   * same position is the result of the pass.
   */
  lemma {:induction false} MapPixelsUnique(s: seq<Byte>, t: seq<Byte>, f: Pixel -> Pixel)
    requires MapsPixels(s, t, f)
    ensures t == MapPixels(s, f)
    decreases |s|
  {
    if s != [] {
      var n := |s| / 4;
      var front, tfront := s[..|s| - 4], t[..|t| - 4];
      forall k: nat | 4 * k + 4 <= |front|
        ensures PixelAt(tfront, k) == f(PixelAt(front, k))
      {
        assert PixelAt(tfront, k) == PixelAt(t, k);
        assert PixelAt(front, k) == PixelAt(s, k);
      }
      MapPixelsUnique(front, tfront, f);
      assert PixelAt(t, n - 1) == f(PixelAt(s, n - 1));
      assert t == tfront + Bytes(PixelAt(t, n - 1));
    }
  }

  /** `t` holds, pixel by pixel, `f` of the pixels of `s`. */
  ghost predicate MapsPixels(s: seq<Byte>, t: seq<Byte>, f: Pixel -> Pixel) {
    |s| % 4 == 0 && |t| == |s| && forall k: nat :: 4 * k + 4 <= |s| ==> PixelAt(t, k) == f(PixelAt(s, k))
  }

  /** Some buffer is the pixel-by-pixel image of `s`: the result of the pass. */
  lemma MapPixelsWitness(s: seq<Byte>, f: Pixel -> Pixel)
    requires |s| % 4 == 0
    ensures exists t :: MapsPixels(s, t, f)
  {
    forall k: nat | 4 * k + 4 <= |s|
      ensures PixelAt(MapPixels(s, f), k) == f(PixelAt(s, k))
    {
      MapPixelsAt(s, f, k);
    }
    assert MapsPixels(s, MapPixels(s, f), f);
  }

  /** The buffer holding the pixels `ps`, in order. */
  function Tile(ps: seq<Pixel>): (r: seq<Byte>)
    ensures |r| == 4 * |ps|
  {
    if ps == [] then [] else Tile(ps[..|ps| - 1]) + Bytes(ps[|ps| - 1])
  }

  /** Pixel `k` of a tiled buffer is the `k`-th pixel tiled. */
  lemma {:induction false} TileAt(ps: seq<Pixel>, k: nat)
    requires k < |ps|
    ensures PixelAt(Tile(ps), k) == ps[k]
  {
    var front := ps[..|ps| - 1];
    var r := Tile(ps);
    if k < |front| {
      TileAt(front, k);
      assert PixelAt(r, k) == PixelAt(Tile(front), k);
    } else {
      assert r[4 * k..] == Bytes(ps[k]);
    }
  }

  /** Some buffer holds exactly the pixels `ps`. */
  lemma TileWitness(ps: seq<Pixel>)
    ensures exists t :: |t| == 4 * |ps| && forall k: nat :: k < |ps| ==> PixelAt(t, k) == ps[k]
  {
    forall k: nat | k < |ps|
      ensures PixelAt(Tile(ps), k) == ps[k]
    {
      TileAt(ps, k);
    }
    var t := Tile(ps);
    assert |t| == 4 * |ps| && forall k: nat :: k < |ps| ==> PixelAt(t, k) == ps[k];
  }
}
