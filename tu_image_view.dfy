/**
 * The computations of Turnip's tu_image_view_init that decide what a texture
 * descriptor of an image view describes: which plane and which format it reads,
 * its size at the base mip level, its depth (3D slices, array layers, or cube
 * faces), the hardware format it samples through (the D24S8 special cases), its
 * swizzle, and whether the view needs its height aligned to two (need_y2_align).
 *
 * The layout queries fdl_tile_mode and fdl_ubwc_enabled and the format table
 * tu6_format_texture are not part of this model: they enter as parameters. The
 * packing of descriptor words, addresses and pitches is not modelled.
 */
module TuImageView {
  import opened Results
  import opened TuFormats
  import opened TuSwizzle
  import opened TuImage

  datatype ViewType = View1D | View2D | View3D | ViewCube | View1DArray | View2DArray | ViewCubeArray

  /** VK_REMAINING_MIP_LEVELS and VK_REMAINING_ARRAY_LAYERS (~0U). */
  const REMAINING: nat := 0xFFFF_FFFF

  /** VkImageSubresourceRange. */
  datatype SubresourceRange = SubresourceRange(aspect: AspectFlags, baseMipLevel: nat, levelCount: nat,
                                               baseArrayLayer: nat, layerCount: nat)

  /** a6xx_format values the view code names; every other hardware format is `OtherHw`. */
  datatype HwFormat =
    | Fmt8888Uint                 // FMT6_8_8_8_8_UINT
    | FmtZ24UnormS8Uint           // FMT6_Z24_UNORM_S8_UINT
    | FmtZ24UnormS8UintAsR8G8B8A8 // FMT6_Z24_UNORM_S8_UINT_AS_R8G8B8A8
    | FmtZ24UintS8Uint            // FMT6_Z24_UINT_S8_UINT
    | OtherHw(code: nat)

  /** The part of tu_native_format the view code reads: the hardware format and
      whether the format can be rendered to (FMT_COLOR). */
  datatype NativeFormat = NativeFormat(fmt: HwFormat, colorSupported: bool)

  /** tu6_format_texture, which is not part of this model. */
  type FormatTable = (VkFormat, TileMode) -> NativeFormat

  /** What the view code asks of one plane's layout: its level-0 size, its tile mode,
      and the per-level answers of fdl_tile_mode and fdl_ubwc_enabled. */
  datatype PlaneQueries = PlaneQueries(width0: nat, height0: nat, tileMode: TileMode,
                                       tileModeAt: nat -> TileMode, ubwcAt: nat -> bool)

  /** The parts of a created image a view reads. */
  datatype ViewedImage = ViewedImage(imageType: ImageType, format: VkFormat, depth0: nat,
                                     layerCount: nat, levelCount: nat,
                                     planes: seq<PlaneQueries>)

  /** The parts of VkImageViewCreateInfo the view code reads; `conversion` is the
      component mapping of a chained Y'CbCr conversion, if any. */
  datatype ViewCreateInfo = ViewCreateInfo(viewType: ViewType, format: VkFormat, range: SubresourceRange,
                                           components: ComponentMapping,
                                           conversion: Option<ComponentMapping>)

  /** What the view records for use as an attachment or blit destination; only set
      for formats the hardware can render to. `ubwcEnabled` is iview->ubwc_enabled. */
  datatype AttachmentInfo = AttachmentInfo(width: nat, height: nat, needY2Align: bool, ubwcEnabled: bool)

  /** The texture-descriptor contents the model computes, as named fields;
      `ubwcEnabled` is the descriptor's FLAG bit (UBWC metadata present). */
  datatype ImageView = ImageView(
    plane: nat, format: VkFormat, tileMode: TileMode, ubwcEnabled: bool,
    fmt: HwFormat, fmtTex: HwFormat, swizzle: SwizzleWord, srgb: bool,
    width: nat, height: nat, storageDepth: nat, depth: nat,
    attachment: Option<AttachmentInfo>)

  // ---------------------------------------------------------------------------
  // Mip-level arithmetic

  function Pow2(n: nat): (p: nat)
    ensures p >= 1
  {
    if n == 0 then 1 else 2 * Pow2(n - 1)
  }

  /** v >> level: `level` halvings, each rounding down. */
  function ShiftRight(v: nat, level: nat): (r: nat)
    ensures r <= v
  {
    if level == 0 then v else ShiftRight(v, level - 1) / 2
  }

  lemma {:induction false} MulMono(x: nat, y: nat, p: nat)
    requires x <= y
    ensures x * p <= y * p
  {
    if p > 0 {
      MulMono(x, y, p - 1);
      assert x * p == x * (p - 1) + x;
      assert y * p == y * (p - 1) + y;
    }
  }

  lemma {:induction false} DoubleFactor(x: nat, p: nat)
    ensures x * (2 * p) == (2 * x) * p
  {
    if x > 0 {
      DoubleFactor(x - 1, p);
      assert x * (2 * p) == (x - 1) * (2 * p) + 2 * p;
      assert (2 * x) * p == (2 * (x - 1)) * p + 2 * p;
    }
  }

  /** Shifting right by `level` is division by 2^level, rounding down. */
  lemma {:induction false} ShiftRightDivides(v: nat, level: nat)
    ensures ShiftRight(v, level) * Pow2(level) <= v < (ShiftRight(v, level) + 1) * Pow2(level)
  {
    if level > 0 {
      ShiftRightDivides(v, level - 1);
      var s := ShiftRight(v, level - 1);
      var p := Pow2(level - 1);
      var h := s / 2;
      assert ShiftRight(v, level) == h && Pow2(level) == 2 * p;
      assert 2 * h <= s < 2 * h + 2;
      MulMono(2 * h, s, p);
      MulMono(s + 1, 2 * h + 2, p);
      var lo := (2 * h) * p;
      var hi := (2 * h + 2) * p;
      assert lo <= s * p && (s + 1) * p <= hi;
      DoubleFactor(h, p);
      DoubleFactor(h + 1, p);
    }
  }

  /** u_minify: the size of a dimension at mip level `level`, never below one. */
  function Minify(v: nat, level: nat): (r: nat)
    ensures r >= 1
    ensures v >= 1 ==> r <= v
  {
    var q := ShiftRight(v, level);
    if q < 1 then 1 else q
  }

  /** A level's size is the level-0 size divided by 2^level, rounded down, or 1 once
      that quotient reaches 0. */
  lemma MinifyDivides(v: nat, level: nat)
    ensures v < Pow2(level) ==> Minify(v, level) == 1
    ensures v >= Pow2(level) ==>
              Minify(v, level) * Pow2(level) <= v < (Minify(v, level) + 1) * Pow2(level)
  {
    var s := ShiftRight(v, level);
    ShiftRightDivides(v, level);
    MulMono(if s >= 1 then 1 else 0, s, Pow2(level));
  }

  /** A dimension never grows from one mip level to the next. */
  lemma MinifyStep(v: nat, level: nat)
    ensures Minify(v, level + 1) <= Minify(v, level)
  {
  }

  /** Deeper mip levels are never larger. */
  lemma {:induction false} MinifyMonotone(v: nat, l1: nat, l2: nat)
    requires l1 <= l2
    ensures Minify(v, l2) <= Minify(v, l1)
    decreases l2 - l1
  {
    if l1 < l2 {
      MinifyMonotone(v, l1, l2 - 1);
      MinifyStep(v, l2 - 1);
    }
  }

  /** Level 0 is the full size, and a size of 0 still yields 1. */
  lemma MinifyBaseLevel(v: nat)
    ensures Minify(v, 0) == if v == 0 then 1 else v
  {
  }

  // ---------------------------------------------------------------------------
  // Layers, levels and depth

  /** tu_get_layerCount: an explicit count, or every layer from the base on. */
  function LayerCount(image: ViewedImage, range: SubresourceRange): nat
    requires range.layerCount == REMAINING ==> range.baseArrayLayer <= image.layerCount
  {
    if range.layerCount == REMAINING then image.layerCount - range.baseArrayLayer
    else range.layerCount
  }

  predicate IsCube(t: ViewType)
  {
    t == ViewCube || t == ViewCubeArray
  }

  /** The depth a storage (image) descriptor sees: the slices of the base level for a
      3D view, else the number of layers. */
  function StorageDepth(image: ViewedImage, info: ViewCreateInfo): nat
    requires info.range.layerCount == REMAINING ==> info.range.baseArrayLayer <= image.layerCount
  {
    if info.viewType == View3D then Minify(image.depth0, info.range.baseMipLevel)
    else LayerCount(image, info.range)
  }

  /** The depth a texture descriptor sees: cube views count cubes, six layers each. */
  function TextureDepth(t: ViewType, storageDepth: nat): (d: nat)
    ensures IsCube(t) ==> d * 6 <= storageDepth < d * 6 + 6
    ensures !IsCube(t) ==> d == storageDepth
  {
    if IsCube(t) then storageDepth / 6 else storageDepth
  }

  /** What a view reads of a created image: each plane's level-0 size and tile mode
      come from that plane's layout, and `tileModeAt(i)` and `ubwcAt(i)` answer
      fdl_tile_mode and fdl_ubwc_enabled for plane i. */
  function ViewedImageOf(img: Image, tileModeAt: nat -> nat -> TileMode, ubwcAt: nat -> nat -> bool)
    : (v: ViewedImage)
    ensures v.imageType == img.imageType && v.format == img.format && v.depth0 == img.extent.depth
    ensures v.layerCount == img.layerCount && v.levelCount == img.levelCount
    ensures |v.planes| == |img.layouts|
    ensures forall i | 0 <= i < |v.planes| ::
              && v.planes[i].width0 == img.layouts[i].width0
              && v.planes[i].height0 == img.layouts[i].height0
              && v.planes[i].tileMode == img.layouts[i].tileMode
  {
    ViewedImage(img.imageType, img.format, img.extent.depth, img.layerCount, img.levelCount,
                seq(|img.layouts|, i requires 0 <= i < |img.layouts| =>
                      PlaneQueries(img.layouts[i].width0, img.layouts[i].height0,
                                   img.layouts[i].tileMode, tileModeAt(i), ubwcAt(i))))
  }

  /** A view of an image tu_image_create produced sees one plane per plane of the
      image's format, the create info's type, size, level and layer counts, and on
      each plane the level-0 size and tile mode the layout engine returned for it:
      placing the planes one after another moves offsets only. */
  lemma CreatedImageViewed(ci: ImageCreateInfo, traits: FormatTraits, dev: DeviceConfig, modifier: nat,
                           planeLayouts: Option<seq<SubresourceLayout>>, fdl: LayoutEngine,
                           img: Image, tileModeAt: nat -> nat -> TileMode, ubwcAt: nat -> nat -> bool)
    requires ci.mipLevels <= FDL_MAX_MIP_LEVELS
    requires planeLayouts.Some? ==> |planeLayouts.value| >= PlaneCount(ci.format)
    requires CreatedImage(ci, traits, dev, modifier, planeLayouts, fdl, Ok(img))
    ensures var v := ViewedImageOf(img, tileModeAt, ubwcAt);
            var p := PlaneSetup(ci, TileModeFor(ci, traits, modifier), UbwcFor(ci, traits, dev, modifier),
                                planeLayouts);
            && |v.planes| == PlaneCount(v.format)
            && v.format == ci.format && v.imageType == ci.imageType && v.depth0 == ci.extent.depth
            && v.levelCount == ci.mipLevels && v.layerCount == ci.arrayLayers
            && !PlanesFail(p, fdl)
            && forall i | 0 <= i < |v.planes| ::
                 && v.planes[i].width0 == RawPlanes(p, fdl)[i].width0
                 && v.planes[i].height0 == RawPlanes(p, fdl)[i].height0
                 && v.planes[i].tileMode == RawPlanes(p, fdl)[i].tileMode
  {
    var p := PlaneSetup(ci, TileModeFor(ci, traits, modifier), UbwcFor(ci, traits, dev, modifier),
                        planeLayouts);
    var raws := RawPlanes(p, fdl);
    forall i | 0 <= i < |raws|
      ensures && img.layouts[i].width0 == raws[i].width0
              && img.layouts[i].height0 == raws[i].height0
              && img.layouts[i].tileMode == raws[i].tileMode
    {
      PlacedPlaneAt(raws, ci.mipLevels, planeLayouts.Some?, i);
    }
  }

  /** The range assertions of tu_image_view_init, and the Vulkan rules that make the
      aspect select an existing plane of the image. */
  predicate ValidView(image: ViewedImage, info: ViewCreateInfo)
  {
    var range := info.range;
    && |image.planes| == PlaneCount(image.format)
    && PlaneIndex(image.format, range.aspect) < PlaneCount(image.format)
    && (range.layerCount == REMAINING ==> range.baseArrayLayer <= image.layerCount)
    && range.baseMipLevel < image.levelCount
    && (image.imageType != Type3D ==>
          range.baseArrayLayer + LayerCount(image, range) <= image.layerCount)
    && (image.imageType == Type3D ==>
          range.baseArrayLayer + LayerCount(image, range)
            <= (if image.depth0 == 0 then 0 else Minify(image.depth0, range.baseMipLevel)))
  }

  // ---------------------------------------------------------------------------
  // Formats

  /** The format the view samples: a depth, stencil or plane aspect reads the format of
      the plane it selects. */
  function ViewFormat(f: VkFormat, aspect: AspectFlags): VkFormat
  {
    if aspect != ASPECT_COLOR then PlaneFormat(f, PlaneIndex(f, aspect)) else f
  }

  predicate IsD24S8(f: VkFormat)
  {
    f == D24UnormS8Uint || f == X8D24UnormPack32
  }

  /** fmt.fmt after the D24S8 adjustment: a UBWC-compressed D24S8 surface is read as
      R8G8B8A8. */
  function ColorFormat(f: VkFormat, native: HwFormat, ubwc: bool): HwFormat
  {
    if IsD24S8(f) && ubwc then FmtZ24UnormS8UintAsR8G8B8A8 else native
  }

  /** fmt_tex: the format the texture descriptor samples through. */
  function TexFormat(f: VkFormat, aspect: AspectFlags, fmt: HwFormat, limitedZ24s8: bool): HwFormat
  {
    if !IsD24S8(f) then fmt
    else if aspect == ASPECT_STENCIL then (if limitedZ24s8 then Fmt8888Uint else FmtZ24UintS8Uint)
    else if aspect & ASPECT_DEPTH != 0 then FmtZ24UnormS8Uint
    else fmt
  }

  /** need_y2_align: a linear level that is not the image's last level. */
  predicate NeedY2Align(tileMode: TileMode, baseMipLevel: nat, imageLevels: nat)
  {
    tileMode == TileLinear && baseMipLevel != imageLevels - 1
  }

  // ---------------------------------------------------------------------------
  // tu_image_view_init

  /** The size of the view at its base level and its storage and texture depths. */
  method ViewSize(image: ViewedImage, info: ViewCreateInfo, layout: PlaneQueries)
    returns (width: nat, height: nat, storageDepth: nat, depth: nat)
    requires info.range.layerCount == REMAINING ==> info.range.baseArrayLayer <= image.layerCount
    ensures width == Minify(layout.width0, info.range.baseMipLevel)
    ensures height == Minify(layout.height0, info.range.baseMipLevel)
    ensures storageDepth == StorageDepth(image, info)
    ensures depth == TextureDepth(info.viewType, storageDepth)
  {
    var range := info.range;
    width := Minify(layout.width0, range.baseMipLevel);
    height := Minify(layout.height0, range.baseMipLevel);
    storageDepth := LayerCount(image, range);
    if info.viewType == View3D {
      storageDepth := Minify(image.depth0, range.baseMipLevel);
    }

    depth := storageDepth;
    if info.viewType == ViewCube || info.viewType == ViewCubeArray {
      depth := depth / 6;    // cubes are 2D arrays to storage descriptors
    }
  }

  /** The color format (fmt.fmt) and the texture format (fmt_tex) of a view of format
      `format`, given the table's hardware format `native`. */
  method ViewTexFormats(format: VkFormat, aspect: AspectFlags, native: HwFormat, ubwcEnabled: bool,
                        limitedZ24s8: bool)
    returns (colorFmt: HwFormat, fmtTex: HwFormat)
    ensures colorFmt == ColorFormat(format, native, ubwcEnabled)
    ensures fmtTex == TexFormat(format, aspect, colorFmt, limitedZ24s8)
  {
    var isD24s8 := IsD24S8(format);
    colorFmt := native;
    if isD24s8 && ubwcEnabled {
      colorFmt := FmtZ24UnormS8UintAsR8G8B8A8;
    }

    fmtTex := colorFmt;
    if isD24s8 {
      if aspect & ASPECT_DEPTH != 0 {
        fmtTex := FmtZ24UnormS8Uint;
      }
      if aspect == ASPECT_STENCIL {
        fmtTex := if limitedZ24s8 then Fmt8888Uint else FmtZ24UintS8Uint;
      }
    }
  }

  /** The descriptor computations of tu_image_view_init. The multi-planar 4:2:0 views
      and formats the hardware cannot render to stop before the attachment state. */
  method ImageViewInit(image: ViewedImage, info: ViewCreateInfo, limitedZ24s8: bool,
                       formatTexture: FormatTable, isSrgb: VkFormat -> bool)
    returns (view: ImageView)
    requires ValidView(image, info)
    ensures var range := info.range;
            var plane := PlaneIndex(image.format, range.aspect);
            var q := image.planes[plane];
            var f := ViewFormat(info.format, range.aspect);
            var tile := q.tileModeAt(range.baseMipLevel);
            var ubwc := q.ubwcAt(range.baseMipLevel);
            var native := formatTexture(f, q.tileMode);
            var s := TexSwizzle(info.components, info.conversion, f, range.aspect, limitedZ24s8);
            && view.plane == plane && view.format == f
            && view.tileMode == tile && view.ubwcEnabled == ubwc
            && view.width == Minify(q.width0, range.baseMipLevel)
            && view.height == Minify(q.height0, range.baseMipLevel)
            && view.storageDepth == StorageDepth(image, info)
            && view.depth == TextureDepth(info.viewType, view.storageDepth)
            && view.fmt == ColorFormat(f, native.fmt, ubwc)
            && view.fmtTex == TexFormat(f, range.aspect, view.fmt, limitedZ24s8)
            && view.swizzle == SwizzleWord(s[0], s[1], s[2], s[3])
            && view.srgb == isSrgb(f)
            && (view.attachment.Some? <==> !IsYuv420(f) && native.colorSupported)
            && (view.attachment.Some? ==>
                  view.attachment.value
                    == AttachmentInfo(view.width, view.height,
                                      NeedY2Align(tile, range.baseMipLevel, image.levelCount), ubwc))
  {
    var range := info.range;
    var format := info.format;
    var aspect := range.aspect;

    var plane := PlaneIndex(image.format, aspect);
    var layout := image.planes[plane];

    var width, height, storageDepth, depth := ViewSize(image, info, layout);

    if aspect != ASPECT_COLOR {
      format := PlaneFormat(format, PlaneIndex(format, aspect));
    }

    var fmt := formatTexture(format, layout.tileMode);
    var tileMode := layout.tileModeAt(range.baseMipLevel);
    var ubwcEnabled := layout.ubwcAt(range.baseMipLevel);
    var colorFmt, fmtTex := ViewTexFormats(format, aspect, fmt.fmt, ubwcEnabled, limitedZ24s8);

    var swizzle := TexSwizzleWord(info.components, info.conversion, format, aspect, limitedZ24s8);

    view := ImageView(plane, format, tileMode, ubwcEnabled, colorFmt, fmtTex, swizzle, isSrgb(format),
                      width, height, storageDepth, depth, None);

    if format == G8B8R8TwoPlane420Unorm || format == G8B8R8ThreePlane420Unorm {
      return;    // planar views are complete once the plane addresses are set
    }
    if !fmt.colorSupported {
      return;
    }

    var needY2Align := NeedY2Align(tileMode, range.baseMipLevel, image.levelCount);
    view := view.(attachment := Some(AttachmentInfo(width, height, needY2Align, ubwcEnabled)));
  }

  // ---------------------------------------------------------------------------
  // Properties

  /** A cube view over 6k layers is k cubes deep, while its storage descriptor sees all
      6k layers; a cube-array view of six layers is one cube. */
  lemma CubeDepth(image: ViewedImage, info: ViewCreateInfo, k: nat)
    requires ValidView(image, info)
    requires IsCube(info.viewType) && StorageDepth(image, info) == 6 * k
    ensures TextureDepth(info.viewType, StorageDepth(image, info)) == k
  {
    var d := TextureDepth(info.viewType, StorageDepth(image, info));
    assert d * 6 <= 6 * k < d * 6 + 6;
  }

  /** A 3D view is as deep as the image's slices at the base level, and no deeper than
      the image; any other view is as deep as the layers it covers. */
  lemma ViewDepthCases(image: ViewedImage, info: ViewCreateInfo)
    requires ValidView(image, info)
    ensures info.viewType == View3D ==>
              StorageDepth(image, info) == Minify(image.depth0, info.range.baseMipLevel)
              && (image.depth0 >= 1 ==> StorageDepth(image, info) <= image.depth0)
    ensures info.viewType != View3D && info.range.layerCount == REMAINING ==>
              info.range.baseArrayLayer + StorageDepth(image, info) == image.layerCount
    ensures IsCube(info.viewType) && image.imageType != Type3D ==>
              info.range.baseArrayLayer + TextureDepth(info.viewType, StorageDepth(image, info)) * 6
                <= image.layerCount
  {
    if info.viewType == View3D && image.depth0 >= 1 {
      MinifyMonotone(image.depth0, 0, info.range.baseMipLevel);
    }
  }

  /** need_y2_align is never set at the image's last level, and is set at every other
      level exactly when that level is laid out linearly. */
  lemma NeedY2AlignCases(tileMode: TileMode, baseMipLevel: nat, imageLevels: nat)
    requires baseMipLevel < imageLevels
    ensures baseMipLevel == imageLevels - 1 ==> !NeedY2Align(tileMode, baseMipLevel, imageLevels)
    ensures baseMipLevel < imageLevels - 1 ==>
              (NeedY2Align(tileMode, baseMipLevel, imageLevels) <==> tileMode == TileLinear)
  {
  }

  /** Depth and stencil views of D32S8 read its two separate planes, as D32_SFLOAT and
      S8_UINT; a color view reads the view format unchanged. */
  lemma ViewFormatCases(f: VkFormat, aspect: AspectFlags)
    ensures aspect == ASPECT_COLOR ==> ViewFormat(f, aspect) == f
    ensures ViewFormat(D32SfloatS8Uint, ASPECT_DEPTH) == D32Sfloat
    ensures ViewFormat(D32SfloatS8Uint, ASPECT_STENCIL) == S8Uint
    ensures PlaneCount(ViewFormat(f, aspect)) == 1 || aspect == ASPECT_COLOR
  {
    PlaneFormatIsSinglePlane(f, PlaneIndex(f, aspect), 0);
  }

  /** D24S8 texture formats: a stencil-only view samples the stencil through an integer
      format (8_8_8_8_UINT under the limited-Z24S8 workaround, else Z24_UINT_S8_UINT), a
      view with the depth aspect samples Z24_UNORM_S8_UINT, and only other formats keep
      the table's format. */
  lemma TexFormatCases(f: VkFormat, aspect: AspectFlags, fmt: HwFormat, limitedZ24s8: bool)
    ensures !IsD24S8(f) ==> TexFormat(f, aspect, fmt, limitedZ24s8) == fmt
    ensures IsD24S8(f) && aspect == ASPECT_STENCIL ==>
              TexFormat(f, aspect, fmt, limitedZ24s8) == (if limitedZ24s8 then Fmt8888Uint else FmtZ24UintS8Uint)
    ensures IsD24S8(f) && aspect != ASPECT_STENCIL && aspect & ASPECT_DEPTH != 0 ==>
              TexFormat(f, aspect, fmt, limitedZ24s8) == FmtZ24UnormS8Uint
  {
  }

  /** A stencil-only view of D24_UNORM_S8_UINT with an identity mapping reads the stencil
      byte into its first channel through an integer format: byte W of 8_8_8_8_UINT
      under the limited-Z24S8 workaround, else the Y (stencil) channel of
      Z24_UINT_S8_UINT. The format choice and the swizzle choice agree. */
  lemma StencilViewReadsStencil(fmt: HwFormat, limitedZ24s8: bool)
    ensures var f := ViewFormat(D24UnormS8Uint, ASPECT_STENCIL);
            var s := TexSwizzle(IDENTITY_MAPPING, None, f, ASPECT_STENCIL, limitedZ24s8);
            var tex := TexFormat(f, ASPECT_STENCIL, fmt, limitedZ24s8);
            && (limitedZ24s8 ==> tex == Fmt8888Uint && s[0] == TexW)
            && (!limitedZ24s8 ==> tex == FmtZ24UintS8Uint && s[0] == TexY)
            && s[1] == TexZero
  {
    var f := ViewFormat(D24UnormS8Uint, ASPECT_STENCIL);
    assert f == D24UnormS8Uint;
    TexSwizzleOfIdentityViews(f, ASPECT_STENCIL, limitedZ24s8);
  }
}
