// `image_data.rs`: the data kept for one loaded image or thumbnail, the pixel
// difference of two image halves, and the memoised difference images.
module Images {
  import opened Common
  import opened Paths
  import opened RgbaImages
  import opened Viewport

  /** An egui texture, identified by the name it was loaded under. */
  datatype Texture = Texture(name: string)

  /** `x as u8` for an `i32` value: keep the low eight bits. */
  function AsU8(x: int): Byte {
    x % 256
  }

  /** One channel of `image_diff`: `(a as i32 - b as i32).abs() as u8`. */
  function ChannelDiff(a: Byte, b: Byte): Byte {
    AsU8(if a >= b then a - b else b - a)
  }

  /** The `as u8` cast never wraps: the channel difference is the exact distance. */
  lemma ChannelDiffIsDistance(a: Byte, b: Byte)
    ensures ChannelDiff(a, b) == if a >= b then a - b else b - a
    ensures ChannelDiff(a, b) == ChannelDiff(b, a)
    ensures ChannelDiff(a, b) == 0 <==> a == b
  {
  }

  /** `op` after the channel loop has run for channels `0..c`. */
  function PartialDiffPixel(op: Pixel, tp: Pixel, c: nat): Pixel
    requires c <= 3
  {
    seq(4, i requires 0 <= i < 4 => if i < c then ChannelDiff(op[i], tp[i]) else op[i])
  }

  /** One pixel of `image_diff`: red, green and blue replaced, alpha kept. */
  function DiffPixel(op: Pixel, tp: Pixel): Pixel {
    PartialDiffPixel(op, tp, 3)
  }

  /** `two` has every pixel `image_diff` reads from it (`get_pixel` panics otherwise). */
  ghost predicate CoversPixelsOf(two: Image, one: Image) {
    one.width == 0 || one.height == 0 || (one.width <= two.width && one.height <= two.height)
  }

  /** The image `image_diff(one, two)` returns. */
  function DiffImage(one: Image, two: Image): Image
    requires one.Valid() && two.Valid() && CoversPixelsOf(two, one)
  {
    Image(one.width, one.height,
          seq(one.height, y requires 0 <= y < one.height =>
            seq(one.width, x requires 0 <= x < one.width => DiffPixel(one.rows[y][x], two.rows[y][x]))))
  }

  /** What the difference image holds: `one`'s size, each colour channel the
      distance between the two images, and `one`'s alpha. */
  lemma DiffImagePixels(one: Image, two: Image, x: nat, y: nat)
    requires one.Valid() && two.Valid() && CoversPixelsOf(two, one)
    requires x < one.width && y < one.height
    ensures var d := DiffImage(one, two);
      d.Valid() && d.width == one.width && d.height == one.height &&
      (forall c :: 0 <= c < 3 ==>
        d.rows[y][x][c] == if one.rows[y][x][c] >= two.rows[y][x][c]
                           then one.rows[y][x][c] - two.rows[y][x][c]
                           else two.rows[y][x][c] - one.rows[y][x][c]) &&
      d.rows[y][x][3] == one.rows[y][x][3]
  {
    forall c | 0 <= c < 3 {
      ChannelDiffIsDistance(one.rows[y][x][c], two.rows[y][x][c]);
    }
  }

  /** `image_diff`: overwrite the colour channels of `one`'s pixels, in place,
      with their distance to the pixels of `two`. */
  method ImageDiff(one: Image, two: Image) returns (r: Image)
    requires one.Valid() && two.Valid() && CoversPixelsOf(two, one)
    ensures r.Valid()
    ensures r == DiffImage(one, two)
  {
    var w, h := one.width, one.height;
    var buf := new Pixel[h, w]((y, x) requires 0 <= y < h && 0 <= x < w => one.rows[y][x]);
    for y := 0 to h
      invariant forall yy, xx :: 0 <= yy < h && 0 <= xx < w ==>
        buf[yy, xx] == if yy < y then DiffPixel(one.rows[yy][xx], two.rows[yy][xx]) else one.rows[yy][xx]
    {
      for x := 0 to w
        invariant forall yy, xx :: 0 <= yy < h && 0 <= xx < w ==>
          buf[yy, xx] == if yy < y || (yy == y && xx < x) then DiffPixel(one.rows[yy][xx], two.rows[yy][xx])
                         else one.rows[yy][xx]
      {
        for c := 0 to 3
          invariant buf[y, x] == PartialDiffPixel(one.rows[y][x], two.rows[y][x], c)
          invariant forall yy, xx :: 0 <= yy < h && 0 <= xx < w && (yy != y || xx != x) ==>
            buf[yy, xx] == if yy < y || (yy == y && xx < x) then DiffPixel(one.rows[yy][xx], two.rows[yy][xx])
                           else one.rows[yy][xx]
        {
          var op := buf[y, x];
          var tp := two.rows[y][x];
          buf[y, x] := op[c := ChannelDiff(op[c], tp[c])];
        }
      }
    }
    r := Image(w, h, seq(h, yy requires 0 <= yy < h reads buf =>
                       seq(w, xx requires 0 <= xx < w reads buf => buf[yy, xx])));
    var d := DiffImage(one, two);
    forall yy | 0 <= yy < h ensures r.rows[yy] == d.rows[yy] {
      assert forall xx | 0 <= xx < w :: r.rows[yy][xx] == d.rows[yy][xx];
    }
  }

  /** The colour difference of the left half of `img` against its right half
      (`create_vdiff_image`), the halves `⌊width / 2⌋` wide. */
  function VerticalDiff(img: Image): (r: Image)
    requires img.Valid()
    ensures r.Valid() && r.width == img.width / 2 && r.height == img.height
  {
    var w, h := img.width / 2, img.height;
    DiffImage(Crop(img, 0, 0, w, h), Crop(img, w, 0, w, h))
  }

  /** The colour difference of the top half of `img` against its bottom half
      (`create_hdiff_image`), the halves `⌊height / 2⌋` high. */
  function HorizontalDiff(img: Image): (r: Image)
    requires img.Valid()
    ensures r.Valid() && r.width == img.width && r.height == img.height / 2
  {
    var w, h := img.width, img.height / 2;
    DiffImage(Crop(img, 0, 0, w, h), Crop(img, 0, h, w, h))
  }

  /** Pixel `(x, y)` of the vertical difference compares pixel `(x, y)` with
      pixel `(x + ⌊width / 2⌋, y)`; alpha comes from the left half. */
  lemma VerticalDiffPixels(img: Image, x: nat, y: nat)
    requires img.Valid() && x < img.width / 2 && y < img.height
    ensures var d, w := VerticalDiff(img), img.width / 2;
      (forall c :: 0 <= c < 3 ==>
        d.rows[y][x][c] == if img.rows[y][x][c] >= img.rows[y][x + w][c]
                           then img.rows[y][x][c] - img.rows[y][x + w][c]
                           else img.rows[y][x + w][c] - img.rows[y][x][c]) &&
      d.rows[y][x][3] == img.rows[y][x][3]
  {
    var w, h := img.width / 2, img.height;
    DiffImagePixels(Crop(img, 0, 0, w, h), Crop(img, w, 0, w, h), x, y);
  }

  /** Pixel `(x, y)` of the horizontal difference compares pixel `(x, y)` with
      pixel `(x, y + ⌊height / 2⌋)`; alpha comes from the top half. */
  lemma HorizontalDiffPixels(img: Image, x: nat, y: nat)
    requires img.Valid() && x < img.width && y < img.height / 2
    ensures var d, h := HorizontalDiff(img), img.height / 2;
      (forall c :: 0 <= c < 3 ==>
        d.rows[y][x][c] == if img.rows[y][x][c] >= img.rows[y + h][x][c]
                           then img.rows[y][x][c] - img.rows[y + h][x][c]
                           else img.rows[y + h][x][c] - img.rows[y][x][c]) &&
      d.rows[y][x][3] == img.rows[y][x][3]
  {
    var w, h := img.width, img.height / 2;
    DiffImagePixels(Crop(img, 0, 0, w, h), Crop(img, 0, h, w, h), x, y);
  }

  /** `ImageData`: what the viewer keeps for a loaded thumbnail or full image.
      `width` and `height` are `f32` in the source, always whole numbers of pixels. */
  class ImageData {
    const baseName: string
    const image: Option<Image>
    const width: nat
    const height: nat
    var colorDiffVSplit: Option<Image>
    var colorDiffHSplit: Option<Image>
    var textureHandle: Option<Texture>
    var cdTextureHandle: Option<Texture>
    const errorMsg: Option<string>

    /** A kept image is well formed and gives the recorded size; memoised
        difference images are well formed. */
    ghost predicate Valid()
      reads this
    {
      (image.Some? ==> image.value.Valid() && width == image.value.width && height == image.value.height) &&
      (colorDiffVSplit.Some? ==> colorDiffVSplit.value.Valid()) &&
      (colorDiffHSplit.Some? ==> colorDiffHSplit.value.Valid())
    }

    /** `ImageData::thumbnail`: the texture only, the pixels are not kept. */
    constructor Thumbnail(path: Path, img: Image)
      ensures Valid()
      ensures baseName == Display(path) && image == None && errorMsg == None
      ensures width == img.width && height == img.height
      ensures textureHandle == Some(Texture(Display(path) + "_thmb")) && cdTextureHandle == None
      ensures colorDiffVSplit == None && colorDiffHSplit == None
    {
      baseName := Display(path);
      image := None;
      width := img.width;
      height := img.height;
      colorDiffVSplit := None;
      colorDiffHSplit := None;
      textureHandle := Some(Texture(Display(path) + "_thmb"));
      cdTextureHandle := None;
      errorMsg := None;
    }

    /** `ImageData::error`: no pixels, no textures, a zero size and the error text. */
    constructor Error(err: IoError)
      ensures Valid()
      ensures baseName == "" && image == None && width == 0 && height == 0
      ensures textureHandle == None && cdTextureHandle == None
      ensures colorDiffVSplit == None && colorDiffHSplit == None
      ensures errorMsg == Some(err.message)
    {
      baseName := "";
      image := None;
      width := 0;
      height := 0;
      colorDiffVSplit := None;
      colorDiffHSplit := None;
      textureHandle := None;
      cdTextureHandle := None;
      errorMsg := Some(err.message);
    }

    /** `ImageData::full_image`: keeps the pixels and takes the size from them. */
    constructor FullImage(path: Path, img: Image)
      requires img.Valid()
      ensures Valid()
      ensures baseName == Display(path) && image == Some(img) && errorMsg == None
      ensures width == img.width && height == img.height
      ensures textureHandle == Some(Texture(Display(path) + "_full")) && cdTextureHandle == None
      ensures colorDiffVSplit == None && colorDiffHSplit == None
    {
      baseName := Display(path);
      width := img.width;
      height := img.height;
      image := Some(img);
      colorDiffVSplit := None;
      colorDiffHSplit := None;
      textureHandle := Some(Texture(Display(path) + "_full"));
      cdTextureHandle := None;
      errorMsg := None;
    }

    /** `texture_handle`: the colour texture for the plain and split modes, the
        colour-difference texture for the two difference modes. Either handle
        is unwrapped, so the one the mode selects must be loaded. */
    function TextureHandle(mode: DiffMode): (t: Texture)
      reads this
      requires mode in {Full, VSplit, HSplit} ==> textureHandle.Some?
      requires mode in {VColorDiff, HColorDiff} ==> cdTextureHandle.Some?
      ensures Some(t) == (if mode in {VColorDiff, HColorDiff} then cdTextureHandle else textureHandle)
    {
      match mode
      case Full | VSplit | HSplit => textureHandle.value
      case VColorDiff | HColorDiff => cdTextureHandle.value
    }

    /** `create_vdiff_image`: unwraps the kept image. */
    method CreateVDiffImage() returns (r: Image)
      requires Valid() && image.Some?
      ensures r == VerticalDiff(image.value)
      ensures r.width == width / 2 && r.height == height
    {
      var w := width / 2;
      var h := height;
      var img := image.value;
      var leftImg := Crop(img, 0, 0, w, h);
      var rightImg := Crop(img, w, 0, w, h);
      r := ImageDiff(leftImg, rightImg);
    }

    /** `create_hdiff_image`: unwraps the kept image. */
    method CreateHDiffImage() returns (r: Image)
      requires Valid() && image.Some?
      ensures r == HorizontalDiff(image.value)
      ensures r.width == width && r.height == height / 2
    {
      var w := width;
      var h := height / 2;
      var img := image.value;
      var topImg := Crop(img, 0, 0, w, h);
      var bottomImg := Crop(img, 0, h, w, h);
      r := ImageDiff(topImg, bottomImg);
    }

    /** `switch_to_vertical_color_diff`: compute the vertical difference once and
        keep it; load the colour-difference texture from it. The gamma curve
        applied to the texture's pixels is not modelled. */
    method SwitchToVerticalColorDiff(gamma: real)
      requires Valid()
      requires colorDiffVSplit.None? ==> image.Some?
      modifies this
      ensures Valid()
      ensures old(colorDiffVSplit).Some? ==> colorDiffVSplit == old(colorDiffVSplit)
      ensures old(colorDiffVSplit).None? ==> colorDiffVSplit == Some(VerticalDiff(image.value))
      ensures cdTextureHandle == Some(Texture(baseName + "_color_diff"))
      ensures colorDiffHSplit == old(colorDiffHSplit) && textureHandle == old(textureHandle)
    {
      if colorDiffVSplit.None? {
        var d := CreateVDiffImage();
        colorDiffVSplit := Some(d);
      }
      cdTextureHandle := Some(Texture(baseName + "_color_diff"));
    }

    /** `switch_to_horizontal_color_diff`, the same for the horizontal difference. */
    method SwitchToHorizontalColorDiff(gamma: real)
      requires Valid()
      requires colorDiffHSplit.None? ==> image.Some?
      modifies this
      ensures Valid()
      ensures old(colorDiffHSplit).Some? ==> colorDiffHSplit == old(colorDiffHSplit)
      ensures old(colorDiffHSplit).None? ==> colorDiffHSplit == Some(HorizontalDiff(image.value))
      ensures cdTextureHandle == Some(Texture(baseName + "_color_diff"))
      ensures colorDiffVSplit == old(colorDiffVSplit) && textureHandle == old(textureHandle)
    {
      if colorDiffHSplit.None? {
        var d := CreateHDiffImage();
        colorDiffHSplit := Some(d);
      }
      cdTextureHandle := Some(Texture(baseName + "_color_diff"));
    }

    /** `switch_to_color_image`: reload the colour texture from the kept image. */
    method SwitchToColorImage()
      requires Valid()
      requires image.Some?
      modifies this
      ensures Valid()
      ensures textureHandle == Some(Texture(baseName + "_full"))
      ensures cdTextureHandle == old(cdTextureHandle)
      ensures colorDiffVSplit == old(colorDiffVSplit) && colorDiffHSplit == old(colorDiffHSplit)
    {
      textureHandle := Some(Texture(baseName + "_full"));
    }
  }
}
