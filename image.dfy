/**
 * The part of an OpenCV `cv::Mat` the frame paths rely on: a continuous
 * 8-bit image of `rows` x `cols` pixels with `channels` interleaved bytes per
 * pixel, and the two colour conversions the code asks of `cv::cvtColor`
 * (COLOR_RGBA2RGB and COLOR_BGR2RGBA), written out pixel by pixel.
 */
module Image {
  import opened Common

  datatype Mat = Mat(rows: int, cols: int, channels: int, data: seq<uint8>) {
    /** A continuous matrix whose byte count matches its shape. */
    predicate Valid()
    {
      rows >= 0 && cols >= 0 && 1 <= channels && |data| == rows * cols * channels
    }

    /** `cv::Mat::empty()`: no elements. */
    predicate Empty()
    {
      rows == 0 || cols == 0
    }
  }

  /** COLOR_BGR2RGBA on one pixel: reverse the three bytes, append an opaque alpha. */
  function BgrPixelToRgba(px: seq<uint8>): (q: seq<uint8>)
    requires |px| == 3
    ensures |q| == 4 && q[3] == 255
    ensures q[0] == px[2] && q[1] == px[1] && q[2] == px[0]
  {
    [px[2], px[1], px[0], 255]
  }

  /** COLOR_RGBA2RGB on one pixel: drop the fourth byte. */
  function RgbaPixelToRgb(px: seq<uint8>): (q: seq<uint8>)
    requires |px| == 4
    ensures q == px[..3]
  {
    [px[0], px[1], px[2]]
  }

  /** COLOR_BGR2RGBA on a buffer of 3-byte pixels. */
  function BgrToRgba(src: seq<uint8>): (dst: seq<uint8>)
    requires |src| % 3 == 0
    ensures |dst| == |src| / 3 * 4
    decreases |src|
  {
    if src == [] then [] else BgrPixelToRgba(src[..3]) + BgrToRgba(src[3..])
  }

  /** COLOR_RGBA2RGB on a buffer of 4-byte pixels. */
  function RgbaToRgb(src: seq<uint8>): (dst: seq<uint8>)
    requires |src| % 4 == 0
    ensures |dst| == |src| / 4 * 3
    decreases |src|
  {
    if src == [] then [] else RgbaPixelToRgb(src[..4]) + RgbaToRgb(src[4..])
  }

  /** Pixel `p` of BgrToRgba(src) is the converted pixel `p` of `src`. */
  lemma {:induction false} BgrToRgbaAt(src: seq<uint8>, p: nat)
    requires |src| % 3 == 0 && p < |src| / 3
    ensures 4 * p + 4 <= |BgrToRgba(src)|
    ensures BgrToRgba(src)[4 * p .. 4 * p + 4] == BgrPixelToRgba(src[3 * p .. 3 * p + 3])
    decreases p
  {
    var rest := src[3..];
    assert BgrToRgba(src) == BgrPixelToRgba(src[..3]) + BgrToRgba(rest);
    if p > 0 {
      BgrToRgbaAt(rest, p - 1);
      assert BgrToRgba(src)[4 * p .. 4 * p + 4] == BgrToRgba(rest)[4 * (p - 1) .. 4 * (p - 1) + 4];
      assert rest[3 * (p - 1) .. 3 * (p - 1) + 3] == src[3 * p .. 3 * p + 3];
    }
  }

  /** Pixel `p` of RgbaToRgb(src) is the first three bytes of pixel `p` of `src`. */
  lemma {:induction false} RgbaToRgbAt(src: seq<uint8>, p: nat)
    requires |src| % 4 == 0 && p < |src| / 4
    ensures 3 * p + 3 <= |RgbaToRgb(src)|
    ensures RgbaToRgb(src)[3 * p .. 3 * p + 3] == src[4 * p .. 4 * p + 3]
    decreases p
  {
    var rest := src[4..];
    assert RgbaToRgb(src) == RgbaPixelToRgb(src[..4]) + RgbaToRgb(rest);
    if p > 0 {
      RgbaToRgbAt(rest, p - 1);
      assert RgbaToRgb(src)[3 * p .. 3 * p + 3] == RgbaToRgb(rest)[3 * (p - 1) .. 3 * (p - 1) + 3];
      assert rest[4 * (p - 1) .. 4 * (p - 1) + 3] == src[4 * p .. 4 * p + 3];
    }
  }

  /** Reverses the byte order inside every 3-byte pixel (B,G,R <-> R,G,B). */
  function SwapRedBlue(src: seq<uint8>): (dst: seq<uint8>)
    requires |src| % 3 == 0
    ensures |dst| == |src|
    decreases |src|
  {
    if src == [] then [] else [src[2], src[1], src[0]] + SwapRedBlue(src[3..])
  }

  /**
   * Expanding 3-byte pixels to RGBA and dropping the alpha again does not give
   * the original bytes back: the first and third byte of every pixel change places.
   */
  lemma {:induction false} ExpandThenDropSwaps(src: seq<uint8>)
    requires |src| % 3 == 0
    ensures RgbaToRgb(BgrToRgba(src)) == SwapRedBlue(src)
    decreases |src|
  {
    if src != [] {
      var head := BgrPixelToRgba(src[..3]);
      var tail := BgrToRgba(src[3..]);
      assert (head + tail)[..4] == head;
      assert (head + tail)[4..] == tail;
      ExpandThenDropSwaps(src[3..]);
    }
  }

  /** A concrete pixel on which the 3 -> 4 -> 3 path differs from the identity. */
  lemma ExpandThenDropIsNotIdentity()
    ensures RgbaToRgb(BgrToRgba([1, 2, 3])) == [3, 2, 1] != [1, 2, 3]
  {
    ExpandThenDropSwaps([1, 2, 3]);
    assert SwapRedBlue([1, 2, 3]) == [3, 2, 1] + SwapRedBlue([]);
  }

  /**
   * The 3 -> 4 -> 3 path is the identity exactly on buffers whose pixels have
   * equal first and third bytes.
   */
  lemma {:induction false} SwapRedBlueFixed(src: seq<uint8>)
    requires |src| % 3 == 0
    ensures SwapRedBlue(src) == src <==> forall p :: 0 <= p < |src| / 3 ==> src[3 * p] == src[3 * p + 2]
    decreases |src|
  {
    if src != [] {
      var rest := src[3..];
      SwapRedBlueFixed(rest);
      var swapped := [src[2], src[1], src[0]] + SwapRedBlue(rest);
      assert SwapRedBlue(src) == swapped;
      if SwapRedBlue(src) == src {
        assert swapped[3..] == SwapRedBlue(rest);
        assert SwapRedBlue(rest) == rest;
        forall p | 0 <= p < |src| / 3
          ensures src[3 * p] == src[3 * p + 2]
        {
          if p > 0 {
            assert rest[3 * (p - 1)] == src[3 * p];
            assert rest[3 * (p - 1) + 2] == src[3 * p + 2];
          }
        }
      }
      if forall p :: 0 <= p < |src| / 3 ==> src[3 * p] == src[3 * p + 2] {
        forall q | 0 <= q < |rest| / 3
          ensures rest[3 * q] == rest[3 * q + 2]
        {
          assert src[3 * (q + 1)] == src[3 * (q + 1) + 2];
        }
        assert src[3 * 0] == src[3 * 0 + 2];
        assert src == [src[2], src[1], src[0]] + rest;
      }
    }
  }
}
