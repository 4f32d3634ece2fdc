// The pixel buffer the core passes around: the `image` crate's `RgbaImage`,
// reduced to what the core reads of it (dimensions, RGBA pixels, cropping).
module RgbaImages {

  /** A `u8` channel value. */
  type Byte = x: int | 0 <= x < 256

  /** An `Rgba<u8>`: red, green, blue, alpha. */
  type Pixel = p: seq<Byte> | |p| == 4 witness [0, 0, 0, 0]

  /** An `RgbaImage`: `height` rows of `width` pixels; `rows[y][x]` is `get_pixel(x, y)`. */
  datatype Image = Image(width: nat, height: nat, rows: seq<seq<Pixel>>) {
    ghost predicate Valid() {
      |rows| == height && forall y | 0 <= y < height :: |rows[y]| == width
    }
  }

  function Min(a: nat, b: nat): nat {
    if a <= b then a else b
  }

  /** `crop_imm(img, x, y, w, h).to_image()`. The `image` crate first clamps the
      rectangle to the image: the corner to the image's size, then the extent to
      what is left of the image beyond the corner. */
  function Crop(img: Image, x: nat, y: nat, w: nat, h: nat): (r: Image)
    requires img.Valid()
    ensures r.Valid()
    ensures r.width == Min(w, img.width - Min(x, img.width))
    ensures r.height == Min(h, img.height - Min(y, img.height))
    ensures x + w <= img.width && y + h <= img.height ==> r.width == w && r.height == h
    ensures forall yy, xx :: 0 <= yy < r.height && 0 <= xx < r.width ==>
      y + yy < img.height && x + xx < img.width && r.rows[yy][xx] == img.rows[y + yy][x + xx]
  {
    var x' := Min(x, img.width);
    var y' := Min(y, img.height);
    var w' := Min(w, img.width - x');
    var h' := Min(h, img.height - y');
    Image(w', h', seq(h', row requires 0 <= row < h' => img.rows[y' + row][x'..x' + w']))
  }
}
