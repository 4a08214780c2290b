/** The RGB565 pixel codec of the image loaders: every 8-bit-per-channel
    pixel becomes one 16-bit value (5 bits red, 6 bits green, 5 bits blue),
    written as a big-endian byte pair, pixels in row-major order. */
module PixelCodec {
  import opened Common

  /** One decoded pixel, as `getpixel` returns it for an 'RGB' image. */
  datatype Rgb = Rgb(r: bv8, g: bv8, b: bv8)

  /** An already cropped and resized image: a sequence of rows of pixels. */
  type Image = seq<seq<Rgb>>

  /** The image has `height` rows of `width` pixels each. */
  predicate WellSized(img: Image, width: nat, height: nat) {
    |img| == height && forall y :: 0 <= y < |img| ==> |img[y]| == width
  }

  /** The packing expression `((r & 0xF8) << 8) | ((g & 0xFC) << 3) | (b >> 3)`.
      Every intermediate value is below 2^16, so 16-bit arithmetic is exact. */
  function Pack565(p: Rgb): (v: bv16)
    // bits 15-11 hold the top 5 bits of red, 10-5 the top 6 of green, 4-0 the top 5 of blue
    ensures v >> 11 == (p.r >> 3) as bv16
    ensures (v >> 5) & 0x3F == (p.g >> 2) as bv16
    ensures v & 0x1F == (p.b >> 3) as bv16
  {
    (((p.r as bv16) & 0xF8) << 8) | (((p.g as bv16) & 0xFC) << 3) | ((p.b as bv16) >> 3)
  }

  /** The high byte `(rgb565 >> 8) & 0xFF`. */
  function Hi(v: bv16): (b: bv8)
    ensures b as bv16 == v / 0x100
  {
    ((v >> 8) & 0xFF) as bv8
  }

  /** The low byte `rgb565 & 0xFF`. */
  function Lo(v: bv16): (b: bv8)
    ensures b as bv16 == v % 0x100
  {
    (v & 0xFF) as bv8
  }

  /** The two bytes that one pixel contributes, high byte first. */
  function PixelBytes(p: Rgb): seq<bv8> {
    [Hi(Pack565(p)), Lo(Pack565(p))]
  }

  /** The bytes of one row, pixel by pixel. */
  function PackedRow(row: seq<Rgb>): seq<bv8> {
    if row == [] then [] else PackedRow(row[..|row| - 1]) + PixelBytes(row[|row| - 1])
  }

  /** The bytes of a whole image, row by row. */
  function PackedImage(img: Image): seq<bv8> {
    if img == [] then [] else PackedImage(img[..|img| - 1]) + PackedRow(img[|img| - 1])
  }

  /** A decoder for the packed format: the 5/6/5 fields shifted back to the
      top of each 8-bit channel. It is the reference against which the
      truncation done by `Pack565` is stated. */
  function Expand565(v: bv16): Rgb {
    Rgb(((v >> 11) as bv8) << 3, (((v >> 5) & 0x3F) as bv8) << 2, ((v & 0x1F) as bv8) << 3)
  }

  /** Packing keeps exactly the top 5, 6 and 5 bits of red, green and blue:
      decoding a packed pixel gives the pixel with its low bits cleared. */
  lemma PackKeepsHighBits(p: Rgb)
    ensures Expand565(Pack565(p)) == Rgb(p.r & 0xF8, p.g & 0xFC, p.b & 0xF8)
  {
  }

  /** Every 16-bit value is the packing of some pixel: pack after decode is the identity. */
  lemma PackExpand(v: bv16)
    ensures Pack565(Expand565(v)) == v
  {
  }

  /** The byte pair is big-endian: the high byte shifted up by 8 bits and
      or-ed with the low byte gives the value back. */
  lemma BytePairBigEndian(v: bv16)
    ensures ((Hi(v) as bv16) << 8) | (Lo(v) as bv16) == v
  {
  }

  /** The three feedback colours pack to the constants the button handlers
      pass to `fill_screen`. */
  lemma PrimaryColours()
    ensures Pack565(Rgb(255, 0, 0)) == 0xF800
    ensures Pack565(Rgb(0, 255, 0)) == 0x07E0
    ensures Pack565(Rgb(0, 0, 255)) == 0x001F
  {
  }

  lemma {:induction false} PackedRowLength(row: seq<Rgb>)
    ensures |PackedRow(row)| == 2 * |row|
  {
    if row != [] {
      PackedRowLength(row[..|row| - 1]);
    }
  }

  /** Pixel `x` of a row sits at bytes `2*x` (high) and `2*x+1` (low). */
  lemma {:induction false} PackedRowAt(row: seq<Rgb>, x: nat)
    requires x < |row|
    ensures |PackedRow(row)| == 2 * |row|
    ensures PackedRow(row)[2 * x] == Hi(Pack565(row[x]))
    ensures PackedRow(row)[2 * x + 1] == Lo(Pack565(row[x]))
  {
    PackedRowLength(row);
    var init := row[..|row| - 1];
    PackedRowLength(init);
    if x < |row| - 1 {
      PackedRowAt(init, x);
    }
  }

  /** Arithmetic step of the length proof: one more row adds `2*width` bytes. */
  lemma OneMoreRow(width: nat, m: nat)
    ensures 2 * width * (m + 1) == 2 * width * m + 2 * width
  {
  }

  lemma {:induction false} PackedImageLength(img: Image, width: nat)
    requires WellSized(img, width, |img|)
    ensures |PackedImage(img)| == 2 * width * |img|
  {
    if img != [] {
      var init := img[..|img| - 1];
      PackedImageLength(init, width);
      PackedRowLength(img[|img| - 1]);
      OneMoreRow(width, |init|);
    }
  }

  /** Byte offsets of row `y`: its pixels start at `2*width*y` and every
      byte of it comes before row `m`, for any later row `m`. */
  lemma RowOffsets(width: nat, y: nat, x: nat, m: nat)
    requires x < width && y < m
    ensures 2 * (y * width + x) == 2 * width * y + 2 * x
    ensures 2 * (y * width + x) + 1 < 2 * width * m
  {
    assert y * width + x < (y + 1) * width;
    assert (y + 1) * width <= m * width;
  }

  /** Byte `k` of a packed image lies either in its earlier rows or in its last row. */
  lemma PackedImageIndex(img: Image, k: nat)
    requires img != [] && k < |PackedImage(img)|
    ensures k < |PackedImage(img[..|img| - 1])| ==>
      PackedImage(img)[k] == PackedImage(img[..|img| - 1])[k]
    ensures k >= |PackedImage(img[..|img| - 1])| ==>
      PackedImage(img)[k] == PackedRow(img[|img| - 1])[k - |PackedImage(img[..|img| - 1])|]
  {
  }

  /** The last row of a packed image starts right after the earlier rows. */
  lemma LastRowAt(img: Image, width: nat, x: nat)
    requires WellSized(img, width, |img|)
    requires img != [] && x < width
    ensures |PackedImage(img[..|img| - 1])| == 2 * width * (|img| - 1)
    ensures |PackedImage(img[..|img| - 1])| + 2 * x + 1 < |PackedImage(img)|
    ensures PackedImage(img)[|PackedImage(img[..|img| - 1])| + 2 * x] == Hi(Pack565(img[|img| - 1][x]))
    ensures PackedImage(img)[|PackedImage(img[..|img| - 1])| + 2 * x + 1] == Lo(Pack565(img[|img| - 1][x]))
  {
    var init := img[..|img| - 1];
    PackedImageLength(init, width);
    PackedRowAt(img[|img| - 1], x);
    var base := |PackedImage(init)|;
    PackedImageIndex(img, base + 2 * x);
    PackedImageIndex(img, base + 2 * x + 1);
  }

  /** Row-major layout: pixel (x, y) of a `width`-wide image sits at bytes
      `2*(y*width+x)` (high) and `2*(y*width+x)+1` (low), and the image
      takes exactly two bytes per pixel. */
  lemma {:induction false} PackedImageAt(img: Image, width: nat, y: nat, x: nat)
    requires WellSized(img, width, |img|)
    requires y < |img| && x < width
    ensures |PackedImage(img)| == 2 * width * |img|
    ensures 2 * (y * width + x) + 1 < |PackedImage(img)|
    ensures PackedImage(img)[2 * (y * width + x)] == Hi(Pack565(img[y][x]))
    ensures PackedImage(img)[2 * (y * width + x) + 1] == Lo(Pack565(img[y][x]))
  {
    PackedImageLength(img, width);
    RowOffsets(width, y, x, |img|);
    if y == |img| - 1 {
      LastRowAt(img, width, x);
    } else {
      var init := img[..|img| - 1];
      var k := 2 * (y * width + x);
      PackedImageAt(init, width, y, x);
      PackedImageIndex(img, k);
      PackedImageIndex(img, k + 1);
    }
  }

  /** The nested packing loop: for each row top to bottom, for each pixel left
      to right, append the high and the low byte of its RGB565 value. */
  method PackPixels(img: Image, width: nat, height: nat) returns (data: seq<bv8>)
    requires WellSized(img, width, height)
    ensures data == PackedImage(img)
    ensures |data| == 2 * width * height
  {
    data := [];
    var y := 0;
    while y < height
      invariant 0 <= y <= height
      invariant data == PackedImage(img[..y])
    {
      var row := img[y];
      var x := 0;
      while x < width
        invariant 0 <= x <= width
        invariant data == PackedImage(img[..y]) + PackedRow(row[..x])
      {
        var rgb565 := Pack565(row[x]);
        data := data + [Hi(rgb565), Lo(rgb565)];
        assert row[..x + 1][..x] == row[..x];
        x := x + 1;
      }
      assert row[..width] == row;
      assert img[..y + 1][..y] == img[..y];
      y := y + 1;
    }
    assert img[..height] == img;
    PackedImageLength(img, width);
  }

  /** The file-checking loader: `None` when the file is absent (`file` is
      `None`), otherwise the packed bytes of the cropped image. */
  method LoadJpgAsRgb565(file: Option<Image>, width: nat, height: nat) returns (r: Option<seq<bv8>>)
    requires file.Some? ==> WellSized(file.value, width, height)
    ensures r.None? <==> file.None?
    ensures r.Some? ==> r.value == PackedImage(file.value) && |r.value| == 2 * width * height
  {
    if file.None? {
      return None;
    }
    var data := PackPixels(file.value, width, height);
    r := Some(data);
  }
}
