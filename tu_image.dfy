/**
 * The layout policy of Turnip's image creation: which tiling and whether UBWC
 * (the Adreno lossless framebuffer compression) an image gets, which queue
 * families may use it, how its planes are sized and placed in memory, which DRM
 * format modifier vkCreateImage chooses, and which one the image reports back.
 *
 * The layout engine `fdl6_layout` is not part of this model: it is a parameter
 * of type `LayoutEngine`, a function from the per-plane request this code builds
 * to the plane layout it returns (or failure, which only explicit layouts cause).
 */
module TuImage {
  import opened Results
  import opened TuFormats

  datatype ImageType = Type1D | Type2D | Type3D
  datatype ImageTiling = TilingOptimal | TilingLinear | TilingDrmFormatModifier
  datatype SharingMode = Exclusive | Concurrent

  /** a6xx_tile_mode; TILE6_LINEAR is the zero value. */
  datatype TileMode = TileLinear | Tile2 | Tile3

  datatype VkError = ErrorInvalidDrmFormatModifierPlaneLayout

  /** VkImageUsageFlags / VkImageCreateFlags bit masks. */
  type Flags = bv32

  const USAGE_SAMPLED: Flags := 0x4
  const USAGE_STORAGE: Flags := 0x8
  const USAGE_INPUT_ATTACHMENT: Flags := 0x80
  const CREATE_MUTABLE_FORMAT: Flags := 0x8

  /** DRM format modifiers (64-bit codes of drm_fourcc.h). */
  const DRM_FORMAT_MOD_LINEAR: nat := 0
  const DRM_FORMAT_MOD_INVALID: nat := 0x00ff_ffff_ffff_ffff
  const DRM_FORMAT_MOD_QCOM_COMPRESSED: nat := 0x0500_0000_0000_0001

  /** VK_QUEUE_FAMILY_EXTERNAL (~0U - 1). */
  const QUEUE_FAMILY_EXTERNAL: nat := 0xFFFF_FFFE

  /** Length of the fixed per-level slice table of a plane layout. */
  const FDL_MAX_MIP_LEVELS: nat := 15

  /** Extra planes start at a multiple of this many bytes. */
  const PLANE_ALIGNMENT: nat := 4096

  datatype Extent3D = Extent3D(width: nat, height: nat, depth: nat)

  /** The parts of VkImageCreateInfo the policy reads; `externalMemory` says whether a
      VkExternalMemoryImageCreateInfo is chained. */
  datatype ImageCreateInfo = ImageCreateInfo(
    imageType: ImageType, format: VkFormat, extent: Extent3D,
    mipLevels: nat, arrayLayers: nat, samples: nat,
    tiling: ImageTiling, usage: Flags, flags: Flags,
    sharingMode: SharingMode, queueFamilyIndices: seq<nat>,
    externalMemory: bool)

  /** Facts about the image format that the Vulkan format helpers provide. */
  datatype FormatTraits = FormatTraits(subsampled: bool, compressed: bool, depthOrStencil: bool)

  /** Device state the policy reads (the TU_DEBUG_NOUBWC debug flag and the A630
      limited-Z24S8 workaround), and TU_MAX_QUEUE_FAMILIES, the driver's fixed
      maximum number of queue families, taken as a parameter. */
  datatype DeviceConfig = DeviceConfig(noUbwcDebug: bool, limitedZ24s8: bool, maxQueueFamilies: nat)

  /** VkSubresourceLayout of one plane of an explicit DRM-modifier layout. */
  datatype SubresourceLayout = SubresourceLayout(offset: nat, rowPitch: nat)

  /** fdl_explicit_layout. */
  datatype ExplicitLayout = ExplicitLayout(offset: nat, pitch: nat)

  /** The fixed table of per-level offsets of a plane layout. */
  type SliceOffsets = s: seq<nat> | |s| == FDL_MAX_MIP_LEVELS witness seq(FDL_MAX_MIP_LEVELS, _ => 0)

  /** The arguments of one fdl6_layout call. */
  datatype FdlRequest = FdlRequest(
    format: VkFormat, tileMode: TileMode, ubwc: bool, samples: nat,
    width0: nat, height0: nat, depth0: nat, mipLevels: nat, arraySize: nat,
    is3d: bool, explicit: Option<ExplicitLayout>)

  /** The parts of a plane's fdl_layout this code reads or adjusts. */
  datatype FdlLayout = FdlLayout(
    tileMode: TileMode, ubwc: bool, width0: nat, height0: nat, size: nat,
    slices: SliceOffsets, ubwcSlices: SliceOffsets, ubwcLayerSize: nat)

  /** fdl6_layout, as seen by its caller. */
  type LayoutEngine = FdlRequest -> Option<FdlLayout>

  /** The created image (tu_image), restricted to what the policy decides. */
  datatype Image = Image(
    imageType: ImageType, format: VkFormat, tiling: ImageTiling, usage: Flags, flags: Flags,
    extent: Extent3D, levelCount: nat, layerCount: nat, samples: nat,
    exclusive: bool, queueFamilyMask: set<nat>, shareable: bool,
    layouts: seq<FdlLayout>, totalSize: nat)

  predicate HasFlag(mask: Flags, bits: Flags)
  {
    mask & bits != 0
  }

  /** What the source asserts about its input, and the bounds of its fixed tables. */
  predicate ValidCreateInfo(ci: ImageCreateInfo, dev: DeviceConfig)
  {
    && ci.mipLevels > 0 && ci.arrayLayers > 0 && ci.samples > 0
    && ci.extent.width > 0 && ci.extent.height > 0 && ci.extent.depth > 0
    && ci.mipLevels <= FDL_MAX_MIP_LEVELS
    && dev.maxQueueFamilies < 32
    && (ci.sharingMode == Concurrent ==>
          forall j | 0 <= j < |ci.queueFamilyIndices| ::
            ci.queueFamilyIndices[j] < 32 || ci.queueFamilyIndices[j] == QUEUE_FAMILY_EXTERNAL)
  }

  // ---------------------------------------------------------------------------
  // Queue family mask

  /** Bit b of the mask belongs to a listed family, or to any of the device's families
      when the external family is listed. */
  predicate FamilyBitSet(indices: seq<nat>, maxFamilies: nat, b: nat)
  {
    (b in indices && b != QUEUE_FAMILY_EXTERNAL) || (QUEUE_FAMILY_EXTERNAL in indices && b < maxFamilies)
  }

  /** The bits 0 .. n-1 of a mask. */
  function FamiliesBelow(n: nat): (s: set<nat>)
    ensures forall b: nat :: b in s <==> b < n
  {
    if n == 0 then {} else FamiliesBelow(n - 1) + {n - 1}
  }

  /** The queue-family mask of tu_image_create, as the set of its bits: empty for
      exclusive sharing; for concurrent sharing, one bit per listed family, and all
      device families for VK_QUEUE_FAMILY_EXTERNAL. */
  method QueueFamilyMask(sharing: SharingMode, indices: seq<nat>, maxFamilies: nat)
    returns (mask: set<nat>)
    requires maxFamilies < 32
    requires sharing == Concurrent ==>
               forall j | 0 <= j < |indices| :: indices[j] < 32 || indices[j] == QUEUE_FAMILY_EXTERNAL
    ensures forall b :: b in mask ==> b < 32
    ensures forall b: nat :: b in mask <==> sharing == Concurrent && FamilyBitSet(indices, maxFamilies, b)
  {
    mask := {};
    if sharing == Concurrent {
      for i := 0 to |indices|
        invariant forall b :: b in mask ==> b < 32
        invariant forall b: nat :: b in mask <==> FamilyBitSet(indices[..i], maxFamilies, b)
      {
        if indices[i] == QUEUE_FAMILY_EXTERNAL {
          mask := mask + FamiliesBelow(maxFamilies);   // (1u << TU_MAX_QUEUE_FAMILIES) - 1u
        } else {
          mask := mask + {indices[i]};                   // 1u << index
        }
        assert indices[..i + 1] == indices[..i] + [indices[i]];
      }
      assert indices[..|indices|] == indices;
    }
  }

  // ---------------------------------------------------------------------------
  // Tiling and UBWC

  /** The rules that make an image linear (and so uncompressed): linear tiling, the
      LINEAR modifier, a subsampled (YUYV/UYVY) layout, a mutable colour format, or a
      multi-planar 4:2:0 format. */
  predicate ForcesLinear(ci: ImageCreateInfo, traits: FormatTraits, modifier: nat)
  {
    || ci.tiling == TilingLinear
    || modifier == DRM_FORMAT_MOD_LINEAR
    || traits.subsampled
    || (HasFlag(ci.flags, CREATE_MUTABLE_FORMAT) && !traits.depthOrStencil)
    || IsYuv420(ci.format)
  }

  /** The rules that only switch UBWC off. */
  predicate UbwcUnsupported(ci: ImageCreateInfo, traits: FormatTraits, dev: DeviceConfig)
  {
    || traits.compressed
    || ci.format == E5B9G9R9UfloatPack32
    || ci.format == S8Uint
    || ci.extent.depth > 1
    || HasFlag(ci.usage, USAGE_STORAGE)
    || (dev.limitedZ24s8 && ci.format == D24UnormS8Uint &&
        HasFlag(ci.usage, USAGE_SAMPLED | USAGE_INPUT_ATTACHMENT))
  }

  function TileModeFor(ci: ImageCreateInfo, traits: FormatTraits, modifier: nat): TileMode
  {
    if ForcesLinear(ci, traits, modifier) then TileLinear else Tile3
  }

  /** UBWC stays on exactly when the debug flag allows it and no rule turns it off. */
  predicate UbwcFor(ci: ImageCreateInfo, traits: FormatTraits, dev: DeviceConfig, modifier: nat)
  {
    !dev.noUbwcDebug && !ForcesLinear(ci, traits, modifier) && !UbwcUnsupported(ci, traits, dev)
  }

  /** The tiling/UBWC decision of tu_image_create: start tiled (TILE6_3) with UBWC
      unless disabled for debugging, then apply each rule in turn. */
  method ChooseTiling(ci: ImageCreateInfo, traits: FormatTraits, dev: DeviceConfig, modifier: nat)
    returns (tileMode: TileMode, ubwc: bool)
    ensures tileMode == (if ForcesLinear(ci, traits, modifier) then TileLinear else Tile3)
    ensures ubwc <==> UbwcFor(ci, traits, dev, modifier)
  {
    tileMode := Tile3;
    ubwc := !dev.noUbwcDebug;

    if ci.tiling == TilingLinear || modifier == DRM_FORMAT_MOD_LINEAR || traits.subsampled ||
       (HasFlag(ci.flags, CREATE_MUTABLE_FORMAT) && !traits.depthOrStencil) {
      tileMode := TileLinear;
      ubwc := false;
    }
    if ci.format == G8B8R8TwoPlane420Unorm || ci.format == G8B8R8ThreePlane420Unorm {
      tileMode := TileLinear;
      ubwc := false;
    }
    if traits.compressed {
      ubwc := false;
    }
    if ci.format == E5B9G9R9UfloatPack32 {
      ubwc := false;
    }
    if ci.format == S8Uint {
      ubwc := false;   // separate stencil has no UBWC enable bit
    }
    if ci.extent.depth > 1 {
      ubwc := false;
    }
    if HasFlag(ci.usage, USAGE_STORAGE) {
      ubwc := false;
    }
    if dev.limitedZ24s8 && ci.format == D24UnormS8Uint &&
       HasFlag(ci.usage, USAGE_SAMPLED | USAGE_INPUT_ATTACHMENT) {
      ubwc := false;
    }
  }

  /** No rule re-enables compression: a UBWC image is always tiled, and each rule on
      its own rules UBWC out. */
  lemma UbwcRequiresTiling(ci: ImageCreateInfo, traits: FormatTraits, dev: DeviceConfig, modifier: nat)
    ensures UbwcFor(ci, traits, dev, modifier) ==> TileModeFor(ci, traits, modifier) == Tile3
    ensures TileModeFor(ci, traits, modifier) == TileLinear ==> !UbwcFor(ci, traits, dev, modifier)
    ensures ci.tiling == TilingLinear || modifier == DRM_FORMAT_MOD_LINEAR || IsYuv420(ci.format)
            ==> TileModeFor(ci, traits, modifier) == TileLinear
    ensures (traits.compressed || ci.format == S8Uint || ci.extent.depth > 1
             || HasFlag(ci.usage, USAGE_STORAGE)) ==> !UbwcFor(ci, traits, dev, modifier)
  {
  }

  // ---------------------------------------------------------------------------
  // Planes: sizes, requests to the layout engine, placement

  /** The extent plane `plane` is laid out with: chroma planes of 4:2:0 formats are
      halved, rounding up. */
  function PlaneExtent(f: VkFormat, width: nat, height: nat, plane: nat): (e: (nat, nat))
    ensures plane > 0 && IsYuv420(f) ==>
              e.0 * 2 - 1 <= width <= e.0 * 2 && e.1 * 2 - 1 <= height <= e.1 * 2
    ensures !(plane > 0 && IsYuv420(f)) ==> e == (width, height)
  {
    if plane > 0 && IsYuv420(f) then ((width + 1) / 2, (height + 1) / 2) else (width, height)
  }

  /** The UBWC flag plane `plane` is laid out with: the separate stencil plane of D32S8
      is never compressed. */
  predicate PlaneUbwc(f: VkFormat, ubwc: bool, plane: nat)
  {
    ubwc && !(plane > 0 && f == D32SfloatS8Uint)
  }

  /** Explicit layouts are only accepted for single-level, single-layer, depth-1 images. */
  predicate SingleSubresource(ci: ImageCreateInfo)
  {
    ci.mipLevels == 1 && ci.arrayLayers == 1 && ci.extent.depth == 1
  }

  /** Everything the plane loop of tu_image_create depends on. */
  datatype PlaneSetup = PlaneSetup(ci: ImageCreateInfo, tileMode: TileMode, ubwc: bool,
                                   planeLayouts: Option<seq<SubresourceLayout>>)
  {
    predicate Valid()
    {
      && ci.mipLevels <= FDL_MAX_MIP_LEVELS
      && (planeLayouts.Some? ==> |planeLayouts.value| >= PlaneCount(ci.format))
    }
  }

  /** The fdl6_layout call made for plane i. */
  function PlaneRequest(p: PlaneSetup, i: nat): FdlRequest
    requires p.Valid() && i < PlaneCount(p.ci.format)
  {
    var ci := p.ci;
    var e := PlaneExtent(ci.format, ci.extent.width, ci.extent.height, i);
    FdlRequest(PlaneFormat(ci.format, i), p.tileMode, PlaneUbwc(ci.format, p.ubwc, i), ci.samples,
               e.0, e.1, ci.extent.depth, ci.mipLevels, ci.arrayLayers, ci.imageType == Type3D,
               match p.planeLayouts
               case None => None
               case Some(pl) => Some(ExplicitLayout(pl[i].offset, pl[i].rowPitch)))
  }

  /** Plane creation fails exactly when explicit layouts are given for an image that is
      not a single subresource, or when the layout engine rejects some plane. */
  predicate PlanesFail(p: PlaneSetup, fdl: LayoutEngine)
    requires p.Valid()
  {
    || (p.planeLayouts.Some? && !SingleSubresource(p.ci))
    || exists i | 0 <= i < PlaneCount(p.ci.format) :: fdl(PlaneRequest(p, i)).None?
  }

  /** The layouts the engine returns, plane by plane, before placement. */
  function RawPlanes(p: PlaneSetup, fdl: LayoutEngine): (raws: seq<FdlLayout>)
    requires p.Valid() && !PlanesFail(p, fdl)
    ensures |raws| == PlaneCount(p.ci.format)
    ensures forall i | 0 <= i < |raws| :: fdl(PlaneRequest(p, i)) == Some(raws[i])
  {
    seq(PlaneCount(p.ci.format),
        i requires 0 <= i < PlaneCount(p.ci.format) => fdl(PlaneRequest(p, i)).value)
  }

  /** Rounds up to a multiple of PLANE_ALIGNMENT (ALIGN_POT(v, 4096)). */
  function AlignToPage(v: nat): (r: nat)
    ensures r % PLANE_ALIGNMENT == 0 && v <= r < v + PLANE_ALIGNMENT
  {
    (v + PLANE_ALIGNMENT - 1) / PLANE_ALIGNMENT * PLANE_ALIGNMENT
  }

  /** The largest size in a list of plane layouts, 0 for none. */
  function MaxSize(ls: seq<FdlLayout>): (m: nat)
    ensures forall j | 0 <= j < |ls| :: ls[j].size <= m
    ensures ls == [] ==> m == 0
    ensures ls != [] ==> exists j | 0 <= j < |ls| :: ls[j].size == m
  {
    if ls == [] then 0
    else
      var prev := MaxSize(ls[..|ls| - 1]);
      var last := ls[|ls| - 1].size;
      if prev < last then last else prev
  }

  /** The first `levels` entries of a slice table moved by `offset`. */
  function ShiftOffsets(s: SliceOffsets, offset: nat, levels: nat): SliceOffsets
  {
    seq(FDL_MAX_MIP_LEVELS, k requires 0 <= k < FDL_MAX_MIP_LEVELS =>
          if k < levels then s[k] + offset else s[k])
  }

  /** A plane layout moved `offset` bytes into the image: its used slices, UBWC slices
      and its end all move. */
  function Shifted(l: FdlLayout, offset: nat, levels: nat): FdlLayout
  {
    l.(slices := ShiftOffsets(l.slices, offset, levels),
       ubwcSlices := ShiftOffsets(l.ubwcSlices, offset, levels),
       size := l.size + offset)
  }

  /** Adds `offset` to the offsets of the first `levels` slices and UBWC slices of a
      plane layout and to its size. */
  method ShiftPlane(layout: FdlLayout, offset: nat, levels: nat) returns (shifted: FdlLayout)
    requires levels <= FDL_MAX_MIP_LEVELS
    ensures shifted == Shifted(layout, offset, levels)
  {
    var slices := layout.slices;
    var ubwcSlices := layout.ubwcSlices;
    for k := 0 to levels
      invariant forall j | 0 <= j < FDL_MAX_MIP_LEVELS ::
                  slices[j] == if j < k then layout.slices[j] + offset else layout.slices[j]
      invariant forall j | 0 <= j < FDL_MAX_MIP_LEVELS ::
                  ubwcSlices[j] == if j < k then layout.ubwcSlices[j] + offset else layout.ubwcSlices[j]
    {
      slices := slices[k := slices[k] + offset];
      ubwcSlices := ubwcSlices[k := ubwcSlices[k] + offset];
    }
    shifted := layout.(slices := slices, ubwcSlices := ubwcSlices, size := layout.size + offset);
  }

  /** Where plane i goes: without explicit layouts every plane after the first is moved
      past everything placed so far, rounded up to PLANE_ALIGNMENT. */
  function PlaceOne(raw: FdlLayout, i: nat, sizeSoFar: nat, levels: nat, explicit: bool): FdlLayout
  {
    if explicit || i == 0 then raw else Shifted(raw, AlignToPage(sizeSoFar), levels)
  }

  /** All planes placed in order, each after the ones before it. */
  function PlacePlanes(raws: seq<FdlLayout>, levels: nat, explicit: bool): (placed: seq<FdlLayout>)
    ensures |placed| == |raws|
  {
    if raws == [] then []
    else
      var prev := PlacePlanes(raws[..|raws| - 1], levels, explicit);
      prev + [PlaceOne(raws[|raws| - 1], |raws| - 1, MaxSize(prev), levels, explicit)]
  }

  lemma MaxSizeSnoc(ls: seq<FdlLayout>, x: FdlLayout)
    ensures MaxSize(ls + [x]) == if MaxSize(ls) < x.size then x.size else MaxSize(ls)
  {
    assert (ls + [x])[..|ls|] == ls;
  }

  lemma PlacePlanesSnoc(raws: seq<FdlLayout>, x: FdlLayout, levels: nat, explicit: bool)
    ensures var prev := PlacePlanes(raws, levels, explicit);
            PlacePlanes(raws + [x], levels, explicit)
              == prev + [PlaceOne(x, |raws|, MaxSize(prev), levels, explicit)]
  {
    assert (raws + [x])[..|raws|] == raws;
  }

  datatype PlacedPlanes = PlacedPlanes(layouts: seq<FdlLayout>, totalSize: nat)

  /** The first half of one round of the plane loop: the plane's extent and UBWC flag,
      the explicit-layout check and the fdl6_layout arguments. No request is made when
      explicit layouts are given for more than one subresource. */
  method PlaneArguments(p: PlaneSetup, i: nat, ubwcIn: bool) returns (request: Option<FdlRequest>, ubwcOut: bool)
    requires p.Valid() && i < PlaneCount(p.ci.format)
    requires ubwcIn == (p.ubwc && !(i > 1 && p.ci.format == D32SfloatS8Uint))
    ensures ubwcOut == (p.ubwc && !(i > 0 && p.ci.format == D32SfloatS8Uint))
    ensures request.None? <==> (p.planeLayouts.Some? && !SingleSubresource(p.ci))
    ensures request.Some? ==> request.value == PlaneRequest(p, i)
  {
    var ci := p.ci;
    var format := PlaneFormat(ci.format, i);
    var width0 := ci.extent.width;
    var height0 := ci.extent.height;
    ubwcOut := ubwcIn;
    if i > 0 {
      if ci.format == G8B8R8TwoPlane420Unorm || ci.format == G8B8R8ThreePlane420Unorm {
        width0 := (width0 + 1) / 2;     // chroma planes are half size
        height0 := (height0 + 1) / 2;
      } else if ci.format == D32SfloatS8Uint {
        ubwcOut := false;               // no UBWC for separate stencil
      }
    }

    var explicit: Option<ExplicitLayout> := None;
    if p.planeLayouts.Some? {
      if ci.mipLevels != 1 || ci.arrayLayers != 1 || ci.extent.depth != 1 {
        return None, ubwcOut;
      }
      var pl := p.planeLayouts.value[i];
      explicit := Some(ExplicitLayout(pl.offset, pl.rowPitch));
    }

    request := Some(FdlRequest(format, p.tileMode, ubwcOut, ci.samples, width0, height0,
                               ci.extent.depth, ci.mipLevels, ci.arrayLayers,
                               ci.imageType == Type3D, explicit));
  }

  /** The second half of one round of the plane loop: the new plane is moved past the
      planes before it (unless layouts are explicit or it is the first) and the running
      image size becomes the largest plane end. */
  method PlaceNext(placed: seq<FdlLayout>, totalSize: nat, layout: FdlLayout, levels: nat, explicit: bool)
    returns (placed': seq<FdlLayout>, totalSize': nat)
    requires levels <= FDL_MAX_MIP_LEVELS && totalSize == MaxSize(placed)
    ensures placed' == placed + [PlaceOne(layout, |placed|, totalSize, levels, explicit)]
    ensures totalSize' == MaxSize(placed')
  {
    var l := layout;
    if !explicit && |placed| > 0 {
      var offset := AlignToPage(totalSize);
      l := ShiftPlane(layout, offset, levels);
    }
    MaxSizeSnoc(placed, l);
    totalSize' := if totalSize < l.size then l.size else totalSize;
    placed' := placed + [l];
  }

  /** The layout engine returned raws[j] for each plane j so far. */
  ghost predicate EngineReturned(p: PlaneSetup, fdl: LayoutEngine, raws: seq<FdlLayout>)
    requires p.Valid() && |raws| <= PlaneCount(p.ci.format)
  {
    forall j | 0 <= j < |raws| :: fdl(PlaneRequest(p, j)) == Some(raws[j])
  }

  lemma RawsSnoc(p: PlaneSetup, fdl: LayoutEngine, raws: seq<FdlLayout>, x: FdlLayout)
    requires p.Valid() && |raws| < PlaneCount(p.ci.format)
    requires EngineReturned(p, fdl, raws) && fdl(PlaneRequest(p, |raws|)) == Some(x)
    ensures EngineReturned(p, fdl, raws + [x])
  {
    var raws' := raws + [x];
    forall j | 0 <= j < |raws'|
      ensures fdl(PlaneRequest(p, j)) == Some(raws'[j])
    {
      if j < |raws| {
        assert raws'[j] == raws[j];
      }
    }
  }

  /** Once every plane has been laid out, plane creation did not fail and the layouts
      collected are the raw planes. */
  lemma AllPlanesReturned(p: PlaneSetup, fdl: LayoutEngine, raws: seq<FdlLayout>)
    requires p.Valid() && |raws| == PlaneCount(p.ci.format)
    requires EngineReturned(p, fdl, raws)
    requires !(p.planeLayouts.Some? && !SingleSubresource(p.ci))
    ensures !PlanesFail(p, fdl) && raws == RawPlanes(p, fdl)
  {
  }

  /** The plane loop of tu_image_create. */
  method LayoutPlanes(p: PlaneSetup, fdl: LayoutEngine) returns (r: Result<PlacedPlanes, VkError>)
    requires p.Valid()
    ensures r.Err? <==> PlanesFail(p, fdl)
    ensures r.Err? ==> r.error == ErrorInvalidDrmFormatModifierPlaneLayout
    ensures r.Ok? ==> !PlanesFail(p, fdl) &&
                      r.value.layouts == PlacePlanes(RawPlanes(p, fdl), p.ci.mipLevels, p.planeLayouts.Some?) &&
                      r.value.totalSize == MaxSize(r.value.layouts)
  {
    var ci := p.ci;
    var n := PlaneCount(ci.format);
    var explicitLayouts := p.planeLayouts.Some?;
    var ubwcEnabled := p.ubwc;
    var placed: seq<FdlLayout> := [];
    var totalSize: nat := 0;
    ghost var raws: seq<FdlLayout> := [];
    var i := 0;
    while i < n
      invariant 0 <= i <= n
      invariant ubwcEnabled == (p.ubwc && !(i > 1 && ci.format == D32SfloatS8Uint))
      invariant |raws| == i
      invariant EngineReturned(p, fdl, raws)
      invariant placed == PlacePlanes(raws, ci.mipLevels, explicitLayouts)
      invariant totalSize == MaxSize(placed)
      invariant i > 0 ==> !(explicitLayouts && !SingleSubresource(ci))
    {
      var request;
      request, ubwcEnabled := PlaneArguments(p, i, ubwcEnabled);
      if request.None? {
        assert PlanesFail(p, fdl);
        return Err(ErrorInvalidDrmFormatModifierPlaneLayout);
      }
      var result := fdl(request.value);
      if result.None? {
        assert PlanesFail(p, fdl) by {
          assert fdl(PlaneRequest(p, i)).None?;
        }
        return Err(ErrorInvalidDrmFormatModifierPlaneLayout);
      }
      PlacePlanesSnoc(raws, result.value, ci.mipLevels, explicitLayouts);
      ghost var before := raws;
      raws := raws + [result.value];
      RawsSnoc(p, fdl, before, result.value);
      placed, totalSize := PlaceNext(placed, totalSize, result.value, ci.mipLevels, explicitLayouts);
      i := i + 1;
    }
    AllPlanesReturned(p, fdl, raws);
    assert placed == PlacePlanes(RawPlanes(p, fdl), p.ci.mipLevels, p.planeLayouts.Some?);
    return Ok(PlacedPlanes(placed, totalSize));
  }

  lemma {:induction false} PlacePlanesPrefix(raws: seq<FdlLayout>, levels: nat, explicit: bool, k: nat)
    requires k <= |raws|
    ensures PlacePlanes(raws, levels, explicit)[..k] == PlacePlanes(raws[..k], levels, explicit)
    decreases |raws|
  {
    if k < |raws| {
      var front := raws[..|raws| - 1];
      PlacePlanesPrefix(front, levels, explicit, k);
      assert front[..k] == raws[..k];
    } else {
      assert raws[..k] == raws;
    }
  }

  /** Planes do not overlap: without explicit layouts, plane i > 0 starts at a
      4096-aligned offset at or past the end of every earlier plane, and its used slices,
      UBWC slices and its end all lie at or past that start. */
  lemma PlanesDoNotOverlap(raws: seq<FdlLayout>, levels: nat, i: nat)
    requires 0 < i < |raws|
    ensures var placed := PlacePlanes(raws, levels, false);
            var start := AlignToPage(MaxSize(placed[..i]));
            && start % PLANE_ALIGNMENT == 0
            && (forall j | 0 <= j < i :: placed[j].size <= start)
            && placed[i] == Shifted(raws[i], start, levels)
            && start <= placed[i].size
            && (forall k | 0 <= k < levels && k < FDL_MAX_MIP_LEVELS ::
                  start <= placed[i].slices[k] && start <= placed[i].ubwcSlices[k])
  {
    var placed := PlacePlanes(raws, levels, false);
    var before := PlacePlanes(raws[..i], levels, false);
    PlacedPlaneAt(raws, levels, false, i);
    var start := AlignToPage(MaxSize(before));
    ShiftedStartsAt(raws[i], start, levels);
    forall j | 0 <= j < i
      ensures placed[j].size <= start
    {
      assert placed[j] == before[j];
    }
  }

  /** A shifted layout's used slices and end lie at or past the shift. */
  lemma ShiftedStartsAt(l: FdlLayout, offset: nat, levels: nat)
    ensures offset <= Shifted(l, offset, levels).size
    ensures forall k | 0 <= k < levels && k < FDL_MAX_MIP_LEVELS ::
              offset <= Shifted(l, offset, levels).slices[k] && offset <= Shifted(l, offset, levels).ubwcSlices[k]
  {
  }

  /** Plane i of the placed planes is placed after the first i planes, placed alone. */
  lemma PlacedPlaneAt(raws: seq<FdlLayout>, levels: nat, explicit: bool, i: nat)
    requires i < |raws|
    ensures var before := PlacePlanes(raws[..i], levels, explicit);
            && PlacePlanes(raws, levels, explicit)[..i] == before
            && PlacePlanes(raws, levels, explicit)[i] == PlaceOne(raws[i], i, MaxSize(before), levels, explicit)
  {
    var whole := PlacePlanes(raws, levels, explicit);
    var upto := raws[..i + 1];
    PlacePlanesPrefix(raws, levels, explicit, i);
    PlacePlanesPrefix(raws, levels, explicit, i + 1);
    assert upto[..|upto| - 1] == raws[..i];
    assert whole[i] == whole[..i + 1][i];
  }

  /** With explicit layouts every plane keeps the layout the engine returned, and the
      first plane is never moved. */
  lemma {:induction false} PlacePlanesKeepsExplicit(raws: seq<FdlLayout>, levels: nat, explicit: bool)
    ensures explicit ==> PlacePlanes(raws, levels, explicit) == raws
    ensures |raws| > 0 ==> PlacePlanes(raws, levels, explicit)[0] == raws[0]
    decreases |raws|
  {
    if raws != [] {
      var front := raws[..|raws| - 1];
      PlacePlanesKeepsExplicit(front, levels, explicit);
      assert raws == front + [raws[|raws| - 1]];
    }
  }

  /** What each plane is laid out with: every plane shares the chosen tile mode; UBWC
      never turns on for a plane; chroma planes of 4:2:0 formats are half size rounded
      up; the separate stencil plane of D32S8 is S8_UINT without UBWC. */
  lemma PlaneRequestProperties(p: PlaneSetup, i: nat)
    requires p.Valid() && i < PlaneCount(p.ci.format)
    ensures PlaneRequest(p, i).tileMode == p.tileMode
    ensures PlaneRequest(p, i).ubwc ==> p.ubwc
    ensures i == 0 ==> PlaneRequest(p, i).width0 == p.ci.extent.width
                       && PlaneRequest(p, i).height0 == p.ci.extent.height
    ensures i > 0 && IsYuv420(p.ci.format) ==>
              PlaneRequest(p, i).width0 == (p.ci.extent.width + 1) / 2
              && PlaneRequest(p, i).height0 == (p.ci.extent.height + 1) / 2
    ensures i > 0 && p.ci.format == D32SfloatS8Uint ==>
              !PlaneRequest(p, i).ubwc && PlaneRequest(p, i).format == S8Uint
    ensures (PlaneRequest(p, i).explicit.Some? <==> p.planeLayouts.Some?)
  {
  }

  // ---------------------------------------------------------------------------
  // tu_image_create

  /** The contract of tu_image_create for the given modifier and explicit layouts. */
  ghost predicate CreatedImage(ci: ImageCreateInfo, traits: FormatTraits, dev: DeviceConfig, modifier: nat,
                         planeLayouts: Option<seq<SubresourceLayout>>, fdl: LayoutEngine,
                         r: Result<Image, VkError>)
    requires ci.mipLevels <= FDL_MAX_MIP_LEVELS
    requires planeLayouts.Some? ==> |planeLayouts.value| >= PlaneCount(ci.format)
  {
    var p := PlaneSetup(ci, TileModeFor(ci, traits, modifier), UbwcFor(ci, traits, dev, modifier),
                        planeLayouts);
    && (r.Err? <==> PlanesFail(p, fdl))
    && (r.Err? ==> r.error == ErrorInvalidDrmFormatModifierPlaneLayout)
    && (r.Ok? ==>
          var img := r.value;
          && img.layouts == PlacePlanes(RawPlanes(p, fdl), ci.mipLevels, planeLayouts.Some?)
          && img.totalSize == MaxSize(img.layouts)
          && img.exclusive == (ci.sharingMode == Exclusive)
          && (forall b: nat :: b in img.queueFamilyMask <==>
                ci.sharingMode == Concurrent && FamilyBitSet(ci.queueFamilyIndices, dev.maxQueueFamilies, b))
          && img.shareable == ci.externalMemory
          && img.imageType == ci.imageType && img.format == ci.format && img.tiling == ci.tiling
          && img.usage == ci.usage && img.flags == ci.flags && img.extent == ci.extent
          && img.levelCount == ci.mipLevels && img.layerCount == ci.arrayLayers
          && img.samples == ci.samples)
  }

  /** tu_image_create (without the allocation failure path). */
  method ImageCreate(ci: ImageCreateInfo, traits: FormatTraits, dev: DeviceConfig, modifier: nat,
                     planeLayouts: Option<seq<SubresourceLayout>>, fdl: LayoutEngine)
    returns (r: Result<Image, VkError>)
    requires ValidCreateInfo(ci, dev)
    requires planeLayouts.Some? ==> |planeLayouts.value| >= PlaneCount(ci.format)
    ensures CreatedImage(ci, traits, dev, modifier, planeLayouts, fdl, r)
    ensures r.Ok? ==> 1 <= |r.value.layouts| == PlaneCount(ci.format)
  {
    var mask := QueueFamilyMask(ci.sharingMode, ci.queueFamilyIndices, dev.maxQueueFamilies);
    var tileMode, ubwc := ChooseTiling(ci, traits, dev, modifier);
    var planes := LayoutPlanes(PlaneSetup(ci, tileMode, ubwc, planeLayouts), fdl);
    if planes.Err? {
      return Err(planes.error);
    }
    r := Ok(Image(ci.imageType, ci.format, ci.tiling, ci.usage, ci.flags, ci.extent,
                  ci.mipLevels, ci.arrayLayers, ci.samples,
                  ci.sharingMode == Exclusive, mask, ci.externalMemory,
                  planes.value.layouts, planes.value.totalSize));
  }

  // ---------------------------------------------------------------------------
  // DRM format modifiers

  /** VkImageDrmFormatModifierExplicitCreateInfoEXT. */
  datatype ExplicitModifier = ExplicitModifier(modifier: nat, planeLayouts: seq<SubresourceLayout>)

  /** The structures of the pNext chain tu_CreateImage looks for: a modifier list, an
      explicit modifier, and the WSI info (present or not, with its scanout flag). */
  datatype ModifierChain = ModifierChain(modifierList: Option<seq<nat>>,
                                         explicitInfo: Option<ExplicitModifier>,
                                         wsiScanout: Option<bool>)

  /** What tu_CreateImage asserts of the chain. */
  predicate ValidChain(tiling: ImageTiling, chain: ModifierChain)
  {
    tiling == TilingDrmFormatModifier ==>
      (chain.modifierList.Some? || chain.explicitInfo.Some?) &&
      (chain.modifierList.None? ==>
         chain.explicitInfo.value.modifier == DRM_FORMAT_MOD_LINEAR ||
         chain.explicitInfo.value.modifier == DRM_FORMAT_MOD_QCOM_COMPRESSED)
  }

  /** The modifier tu_CreateImage passes on: from a list, QCOM_COMPRESSED if listed and
      LINEAR otherwise; an explicit modifier as given; LINEAR for a scanout WSI image;
      INVALID (no modifier) otherwise. */
  function ChosenModifier(tiling: ImageTiling, chain: ModifierChain): nat
    requires ValidChain(tiling, chain)
  {
    if tiling == TilingDrmFormatModifier then
      match chain.modifierList
      case Some(mods) =>
        if DRM_FORMAT_MOD_QCOM_COMPRESSED in mods then DRM_FORMAT_MOD_QCOM_COMPRESSED
        else DRM_FORMAT_MOD_LINEAR
      case None => chain.explicitInfo.value.modifier
    else if chain.wsiScanout == Some(true) then DRM_FORMAT_MOD_LINEAR
    else DRM_FORMAT_MOD_INVALID
  }

  /** Explicit plane layouts are passed on only with an explicit modifier. */
  function ChosenPlaneLayouts(tiling: ImageTiling, chain: ModifierChain): Option<seq<SubresourceLayout>>
    requires ValidChain(tiling, chain)
  {
    if tiling == TilingDrmFormatModifier && chain.modifierList.None?
    then Some(chain.explicitInfo.value.planeLayouts)
    else None
  }

  /** Modifier selection of tu_CreateImage. */
  method ChooseModifier(tiling: ImageTiling, chain: ModifierChain)
    returns (modifier: nat, planeLayouts: Option<seq<SubresourceLayout>>)
    requires ValidChain(tiling, chain)
    ensures modifier == ChosenModifier(tiling, chain)
    ensures planeLayouts == ChosenPlaneLayouts(tiling, chain)
  {
    modifier := DRM_FORMAT_MOD_INVALID;
    planeLayouts := None;
    if tiling == TilingDrmFormatModifier {
      if chain.modifierList.Some? {
        var mods := chain.modifierList.value;
        modifier := DRM_FORMAT_MOD_LINEAR;
        for i := 0 to |mods|
          invariant modifier == if DRM_FORMAT_MOD_QCOM_COMPRESSED in mods[..i]
                                then DRM_FORMAT_MOD_QCOM_COMPRESSED else DRM_FORMAT_MOD_LINEAR
        {
          if mods[i] == DRM_FORMAT_MOD_QCOM_COMPRESSED {
            modifier := DRM_FORMAT_MOD_QCOM_COMPRESSED;
          }
          assert mods[..i + 1] == mods[..i] + [mods[i]];
        }
        assert mods[..|mods|] == mods;
      } else {
        modifier := chain.explicitInfo.value.modifier;
        planeLayouts := Some(chain.explicitInfo.value.planeLayouts);
      }
    } else {
      if chain.wsiScanout == Some(true) {
        modifier := DRM_FORMAT_MOD_LINEAR;
      }
    }
  }

  /** With a modifier list the image is UBWC-compressed exactly when QCOM_COMPRESSED is
      listed and linear otherwise; an explicit modifier is taken as given, together with
      its plane layouts; outside DRM-modifier tiling a scanout WSI image is linear and
      every other image has no modifier. */
  lemma ChosenModifierCases(tiling: ImageTiling, chain: ModifierChain)
    requires ValidChain(tiling, chain)
    ensures tiling == TilingDrmFormatModifier && chain.modifierList.Some? ==>
              && (ChosenModifier(tiling, chain) == DRM_FORMAT_MOD_QCOM_COMPRESSED <==>
                    DRM_FORMAT_MOD_QCOM_COMPRESSED in chain.modifierList.value)
              && (ChosenModifier(tiling, chain) == DRM_FORMAT_MOD_LINEAR <==>
                    DRM_FORMAT_MOD_QCOM_COMPRESSED !in chain.modifierList.value)
              && ChosenPlaneLayouts(tiling, chain).None?
    ensures tiling == TilingDrmFormatModifier && chain.modifierList.None? ==>
              ChosenModifier(tiling, chain) == chain.explicitInfo.value.modifier
              && ChosenPlaneLayouts(tiling, chain) == Some(chain.explicitInfo.value.planeLayouts)
    ensures tiling != TilingDrmFormatModifier ==>
              ChosenPlaneLayouts(tiling, chain).None?
              && (ChosenModifier(tiling, chain) == DRM_FORMAT_MOD_LINEAR <==> chain.wsiScanout == Some(true))
              && (ChosenModifier(tiling, chain) == DRM_FORMAT_MOD_INVALID <==> chain.wsiScanout != Some(true))
  {
  }

  /** tu_CreateImage (without the Android gralloc path): choose the modifier, then
      create the image with it. */
  method CreateImage(ci: ImageCreateInfo, chain: ModifierChain, traits: FormatTraits,
                     dev: DeviceConfig, fdl: LayoutEngine)
    returns (r: Result<Image, VkError>)
    requires ValidCreateInfo(ci, dev) && ValidChain(ci.tiling, chain)
    requires ci.tiling == TilingDrmFormatModifier && chain.modifierList.None? ==>
               |chain.explicitInfo.value.planeLayouts| >= PlaneCount(ci.format)
    ensures CreatedImage(ci, traits, dev, ChosenModifier(ci.tiling, chain),
                         ChosenPlaneLayouts(ci.tiling, chain), fdl, r)
  {
    var modifier, planeLayouts := ChooseModifier(ci.tiling, chain);
    r := ImageCreate(ci, traits, dev, modifier, planeLayouts, fdl);
  }

  /** tu_GetImageDrmFormatModifierPropertiesEXT for an image whose first plane has
      layout `layout0`: LINEAR when untiled, QCOM_COMPRESSED when it has UBWC
      metadata, and INVALID for a tiled image without it. */
  function DrmFormatModifierOf(layout0: FdlLayout): (m: nat)
    ensures m == DRM_FORMAT_MOD_LINEAR <==> layout0.tileMode == TileLinear
    ensures m == DRM_FORMAT_MOD_QCOM_COMPRESSED <==>
              layout0.tileMode != TileLinear && layout0.ubwcLayerSize != 0
    ensures m == DRM_FORMAT_MOD_INVALID <==>
              layout0.tileMode != TileLinear && layout0.ubwcLayerSize == 0
  {
    if layout0.tileMode == TileLinear then DRM_FORMAT_MOD_LINEAR
    else if layout0.ubwcLayerSize != 0 then DRM_FORMAT_MOD_QCOM_COMPRESSED
    else DRM_FORMAT_MOD_INVALID
  }

  /** The modifier an image reports is the one it was created with, provided the
      layout engine keeps the tile mode it was asked for on the first plane and answers
      a UBWC request with UBWC metadata. The driver's part: a QCOM_COMPRESSED image for
      which the decision keeps UBWC (the assertion after the tiling rules) asks for
      UBWC on its first plane. */
  lemma ReportedModifierRoundTrip(ci: ImageCreateInfo, traits: FormatTraits, dev: DeviceConfig,
                                  modifier: nat, planeLayouts: Option<seq<SubresourceLayout>>,
                                  fdl: LayoutEngine)
    requires ci.mipLevels <= FDL_MAX_MIP_LEVELS
    requires planeLayouts.Some? ==> |planeLayouts.value| >= PlaneCount(ci.format)
    requires var p := PlaneSetup(ci, TileModeFor(ci, traits, modifier),
                                 UbwcFor(ci, traits, dev, modifier), planeLayouts);
             && !PlanesFail(p, fdl)
             && RawPlanes(p, fdl)[0].tileMode == PlaneRequest(p, 0).tileMode
             && (PlaneRequest(p, 0).ubwc ==> RawPlanes(p, fdl)[0].ubwcLayerSize != 0)
    ensures var p := PlaneSetup(ci, TileModeFor(ci, traits, modifier),
                                UbwcFor(ci, traits, dev, modifier), planeLayouts);
            var layout0 := PlacePlanes(RawPlanes(p, fdl), ci.mipLevels, planeLayouts.Some?)[0];
            && (modifier == DRM_FORMAT_MOD_LINEAR ==> DrmFormatModifierOf(layout0) == DRM_FORMAT_MOD_LINEAR)
            && (modifier == DRM_FORMAT_MOD_QCOM_COMPRESSED && UbwcFor(ci, traits, dev, modifier) ==>
                  PlaneRequest(p, 0).ubwc
                  && DrmFormatModifierOf(layout0) == DRM_FORMAT_MOD_QCOM_COMPRESSED)
  {
    var p := PlaneSetup(ci, TileModeFor(ci, traits, modifier), UbwcFor(ci, traits, dev, modifier),
                        planeLayouts);
    PlacePlanesKeepsExplicit(RawPlanes(p, fdl), ci.mipLevels, planeLayouts.Some?);
  }
}
