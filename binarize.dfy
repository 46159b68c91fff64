/**
 * The binarization pass the region selector runs over the canvas before
 * drawing the regions: every pixel of an RGBA buffer becomes black or white
 * according to its luma, and alpha is left alone.
 *
 * Luma is `0.3 R + 0.59 G + 0.11 B`; the model scales it by 100 so that the
 * weights are exact integers (`30 R + 59 G + 11 B`) and compares it with
 * `100 * threshold`, which is the exact-arithmetic reading of
 * `grayscale >= threshold`.
 */
module Binarize {

  /** One channel of a canvas `Uint8ClampedArray`. */
  type Byte = x: int | 0 <= x < 256

  const Black: Byte := 0
  const White: Byte := 255

  /** Luma of a pixel, times 100. */
  function Luma100(r: Byte, g: Byte, b: Byte): int {
    30 * r + 59 * g + 11 * b
  }

  /** The colour every channel of a pixel receives. */
  function BinaryColor(r: Byte, g: Byte, b: Byte, threshold: int): Byte {
    if Luma100(r, g, b) >= 100 * threshold then White else Black
  }

  /** An RGBA buffer as `ImageData` lays it out: four bytes per pixel. */
  predicate IsRgba(s: seq<Byte>) {
    |s| % 4 == 0
  }

  /** A multiple of 4 above another multiple of 4 is at least 4 above it. */
  lemma NextPixel(i: int, n: int)
    requires 0 <= i < n && i % 4 == 0 && n % 4 == 0
    ensures i + 4 <= n && (n - i - 4) % 4 == 0
  {
    var j, m := i / 4, n / 4;
    assert i == 4 * j && n == 4 * m;
    assert n - i - 4 == 4 * (m - j - 1);
  }

  /** The four bytes one pixel `r, g, b, a` becomes. */
  function PixelOut(r: Byte, g: Byte, b: Byte, a: Byte, threshold: int): seq<Byte> {
    var c := BinaryColor(r, g, b, threshold);
    [c, c, c, a]
  }

  /** The whole buffer after thresholding, pixel by pixel. */
  function Thresholded(s: seq<Byte>, threshold: int): (t: seq<Byte>)
    requires IsRgba(s)
    ensures |t| == |s|
    decreases |s|
  {
    if s == [] then []
    else
      NextPixel(0, |s|);
      PixelOut(s[0], s[1], s[2], s[3], threshold) + Thresholded(s[4..], threshold)
  }

  /** Thresholding a buffer extended by one pixel extends the result by that
      pixel's output. */
  lemma {:induction false} ThresholdedSnoc(s: seq<Byte>, px: seq<Byte>, threshold: int)
    requires IsRgba(s) && |px| == 4
    ensures IsRgba(s + px)
    ensures Thresholded(s + px, threshold) == Thresholded(s, threshold) + PixelOut(px[0], px[1], px[2], px[3], threshold)
    decreases |s|
  {
    if s == [] {
      assert s + px == px;
      assert px[4..] == [];
    } else {
      assert (s + px)[..4] == s[..4];
      assert (s + px)[4..] == s[4..] + px;
      ThresholdedSnoc(s[4..], px, threshold);
    }
  }

  /** One more pixel of the buffer thresholded: the prefix up to the next
      pixel boundary is thresholded into the old output followed by that
      pixel's output. */
  lemma ThresholdedStep(orig: seq<Byte>, threshold: int, i: nat)
    requires IsRgba(orig) && i % 4 == 0 && i < |orig|
    ensures i + 4 <= |orig| && (i + 4) % 4 == 0 && IsRgba(orig[..i]) && IsRgba(orig[..i + 4])
    ensures Thresholded(orig[..i + 4], threshold)
      == Thresholded(orig[..i], threshold) + PixelOut(orig[i], orig[i + 1], orig[i + 2], orig[i + 3], threshold)
  {
    NextPixel(i, |orig|);
    ThresholdedSnoc(orig[..i], orig[i..i + 4], threshold);
    assert orig[..i] + orig[i..i + 4] == orig[..i + 4];
  }

  /** `applyThresholding`: the in-place stride-4 pass over the pixel bytes. */
  method ApplyThresholding(data: array<Byte>, threshold: int)
    requires IsRgba(data[..])
    modifies data
    ensures data[..] == Thresholded(old(data[..]), threshold)
  {
    ghost var orig := data[..];
    ghost var out: seq<Byte> := [];
    var i := 0;
    while i < data.Length
      invariant 0 <= i <= data.Length && i % 4 == 0 && IsRgba(orig[..i])
      invariant out == Thresholded(orig[..i], threshold)
      invariant forall k :: 0 <= k < i ==> data[k] == out[k]
      invariant forall k :: i <= k < data.Length ==> data[k] == orig[k]
    {
      ThresholdedStep(orig, threshold, i);
      var r := data[i];
      var g := data[i + 1];
      var b := data[i + 2];
      var binaryColor := BinaryColor(r, g, b, threshold);
      data[i + 2] := binaryColor;
      data[i + 1] := binaryColor;
      data[i] := binaryColor;
      ghost var pixel := PixelOut(r, g, b, orig[i + 3], threshold);
      forall k | 0 <= k < i + 4
        ensures data[k] == (out + pixel)[k]
      {
        if k < i {
          assert (out + pixel)[k] == out[k];
        } else {
          assert (out + pixel)[k] == pixel[k - i];
        }
      }
      out := out + pixel;
      i := i + 4;
    }
    assert orig[..i] == orig;
  }

  /** Pixel `p` of the result is the output of pixel `p` of the input. */
  lemma {:induction false} ThresholdedAt(s: seq<Byte>, threshold: int, p: nat)
    requires IsRgba(s) && p % 4 == 0 && p < |s|
    ensures p + 4 <= |s|
    ensures var t, out := Thresholded(s, threshold), PixelOut(s[p], s[p + 1], s[p + 2], s[p + 3], threshold);
      t[p] == out[0] && t[p + 1] == out[1] && t[p + 2] == out[2] && t[p + 3] == out[3]
    decreases p
  {
    NextPixel(p, |s|);
    if p > 0 {
      NextPixel(0, |s|);
      NextPixel(p - 4, |s| - 4);
      ThresholdedAt(s[4..], threshold, p - 4);
      var t := Thresholded(s, threshold);
      var rest := Thresholded(s[4..], threshold);
      assert t == PixelOut(s[0], s[1], s[2], s[3], threshold) + rest;
      assert t[p] == rest[p - 4] && t[p + 1] == rest[p - 3] && t[p + 2] == rest[p - 2] && t[p + 3] == rest[p - 1];
    }
  }

  /** What thresholding promises of each pixel: the buffer keeps its length,
      R, G and B are all 0 or all 255, alpha is unchanged, and the pixel is
      white exactly when its luma reaches the threshold. */
  lemma ThresholdedPixel(s: seq<Byte>, threshold: int, p: nat)
    requires IsRgba(s) && p % 4 == 0 && p < |s|
    ensures |Thresholded(s, threshold)| == |s| && p + 4 <= |s|
    ensures var t := Thresholded(s, threshold);
      && (t[p] == White || t[p] == Black)
      && t[p] == t[p + 1] == t[p + 2]
      && t[p + 3] == s[p + 3]
      && (t[p] == White <==> 30 * s[p] + 59 * s[p + 1] + 11 * s[p + 2] >= 100 * threshold)
  {
    ThresholdedAt(s, threshold, p);
  }

  /** Raising the threshold never turns a black pixel white. */
  lemma ThresholdMonotone(s: seq<Byte>, low: int, high: int, p: nat)
    requires IsRgba(s) && p % 4 == 0 && p < |s| && low <= high
    requires Thresholded(s, low)[p] == Black
    ensures Thresholded(s, high)[p] == Black
  {
    ThresholdedPixel(s, low, p);
    ThresholdedPixel(s, high, p);
  }

  /** A pixel that is already black or white keeps its colour. */
  lemma BinaryColorStable(r: Byte, g: Byte, b: Byte, threshold: int)
    ensures var c := BinaryColor(r, g, b, threshold);
      BinaryColor(c, c, c, threshold) == c
  {
    var l := Luma100(r, g, b);
    assert 0 <= l <= 25500;
  }

  /** In exact arithmetic a second pass with the same threshold changes
      nothing: white pixels have luma 255 and black pixels luma 0, and a pixel
      was white only if some luma up to 255 reached the threshold. */
  lemma {:induction false} ThresholdIdempotent(s: seq<Byte>, threshold: int)
    requires IsRgba(s)
    ensures IsRgba(Thresholded(s, threshold))
    ensures Thresholded(Thresholded(s, threshold), threshold) == Thresholded(s, threshold)
    decreases |s|
  {
    if s != [] {
      NextPixel(0, |s|);
      var t := Thresholded(s, threshold);
      var head := PixelOut(s[0], s[1], s[2], s[3], threshold);
      BinaryColorStable(s[0], s[1], s[2], threshold);
      ThresholdIdempotent(s[4..], threshold);
      assert t[..4] == head;
      assert t[4..] == Thresholded(s[4..], threshold);
    }
  }
}
