/**
 * The Vulkan formats and image aspects that Turnip's image code distinguishes,
 * and its per-plane tables: how many memory planes a format occupies, which
 * single-plane format each plane is laid out as, and which plane an aspect
 * of a view selects.
 */
module TuFormats {

  /** Vulkan formats named by the image code; `OtherFormat` stands for any format
      the code does not single out. */
  datatype VkFormat =
    | R8Unorm
    | R8G8Unorm
    | S8Uint
    | D32Sfloat
    | D32SfloatS8Uint
    | D24UnormS8Uint
    | X8D24UnormPack32
    | G8B8R8TwoPlane420Unorm     // NV12-like: luma plane + interleaved chroma plane
    | G8B8R8ThreePlane420Unorm   // IYUV-like: luma plane + two chroma planes
    | G8B8G8R8Unorm422
    | B8G8R8G8Unorm422
    | Bc1RgbUnormBlock
    | Bc1RgbSrgbBlock
    | E5B9G9R9UfloatPack32
    | OtherFormat(code: nat)

  /** VkImageAspectFlags, as the bit mask the driver compares. */
  type AspectFlags = bv32

  const ASPECT_COLOR: AspectFlags := 0x1
  const ASPECT_DEPTH: AspectFlags := 0x2
  const ASPECT_STENCIL: AspectFlags := 0x4
  const ASPECT_PLANE_0: AspectFlags := 0x10
  const ASPECT_PLANE_1: AspectFlags := 0x20
  const ASPECT_PLANE_2: AspectFlags := 0x40

  /** The two 4:2:0 multi-planar YUV formats, whose chroma planes are subsampled. */
  predicate IsYuv420(f: VkFormat)
  {
    f == G8B8R8TwoPlane420Unorm || f == G8B8R8ThreePlane420Unorm
  }

  /** tu6_plane_count: number of separately laid out planes of an image of format `f`. */
  function PlaneCount(f: VkFormat): (n: nat)
    ensures 1 <= n <= 3
  {
    match f
    case G8B8R8TwoPlane420Unorm => 2
    case D32SfloatS8Uint => 2
    case G8B8R8ThreePlane420Unorm => 3
    case _ => 1
  }

  /** tu6_plane_format: the single-plane format plane `plane` of `f` is laid out as
      (any non-zero plane number selects the second format of a two-plane format). */
  function PlaneFormat(f: VkFormat, plane: nat): VkFormat
  {
    match f
    case G8B8R8TwoPlane420Unorm => if plane != 0 then R8G8Unorm else R8Unorm
    case G8B8R8ThreePlane420Unorm => R8Unorm
    case D32SfloatS8Uint => if plane != 0 then S8Uint else D32Sfloat
    case _ => f
  }

  /** tu6_plane_index: the plane an aspect mask selects; only an exact single-bit mask
      is recognised, and stencil is a separate plane only for D32_SFLOAT_S8_UINT. */
  function PlaneIndex(f: VkFormat, aspect: AspectFlags): nat
  {
    if aspect == ASPECT_PLANE_1 then 1
    else if aspect == ASPECT_PLANE_2 then 2
    else if aspect == ASPECT_STENCIL then (if f == D32SfloatS8Uint then 1 else 0)
    else 0
  }

  /** Plane counts: two planes exactly for the 2-plane 4:2:0 format and D32S8, three
      exactly for the 3-plane 4:2:0 format, one for every other format. */
  lemma PlaneCountCases(f: VkFormat)
    ensures PlaneCount(f) == 2 <==> f == G8B8R8TwoPlane420Unorm || f == D32SfloatS8Uint
    ensures PlaneCount(f) == 3 <==> f == G8B8R8ThreePlane420Unorm
    ensures PlaneCount(f) == 1 <==> !IsYuv420(f) && f != D32SfloatS8Uint
  {
  }

  /** A single-plane format is its own plane format, for every plane number. */
  lemma SinglePlaneFormatUnchanged(f: VkFormat, plane: nat)
    requires PlaneCount(f) == 1
    ensures PlaneFormat(f, plane) == f
  {
  }

  /** Every plane of every format is laid out in a single-plane format, and taking the
      plane format again changes nothing: the table is idempotent. */
  lemma PlaneFormatIsSinglePlane(f: VkFormat, plane: nat, other: nat)
    ensures PlaneCount(PlaneFormat(f, plane)) == 1
    ensures PlaneFormat(PlaneFormat(f, plane), other) == PlaneFormat(f, plane)
  {
  }

  /** The plane an aspect selects is always one of the three layout slots; PLANE_1 and
      PLANE_2 select planes 1 and 2, and STENCIL selects plane 1 exactly for D32S8. */
  lemma PlaneIndexCases(f: VkFormat, aspect: AspectFlags)
    ensures PlaneIndex(f, aspect) < 3
    ensures aspect == ASPECT_PLANE_1 ==> PlaneIndex(f, aspect) == 1
    ensures aspect == ASPECT_PLANE_2 ==> PlaneIndex(f, aspect) == 2
    ensures aspect == ASPECT_STENCIL ==> (PlaneIndex(f, aspect) == 1 <==> f == D32SfloatS8Uint)
    ensures (aspect != ASPECT_PLANE_1 && aspect != ASPECT_PLANE_2 && aspect != ASPECT_STENCIL)
            ==> PlaneIndex(f, aspect) == 0
  {
  }

  /** For D32S8, the stencil aspect selects an existing plane, laid out as S8_UINT, and
      the depth aspect selects plane 0, laid out as D32_SFLOAT. */
  lemma SeparateStencilPlane()
    ensures PlaneIndex(D32SfloatS8Uint, ASPECT_STENCIL) < PlaneCount(D32SfloatS8Uint)
    ensures PlaneFormat(D32SfloatS8Uint, PlaneIndex(D32SfloatS8Uint, ASPECT_STENCIL)) == S8Uint
    ensures PlaneFormat(D32SfloatS8Uint, PlaneIndex(D32SfloatS8Uint, ASPECT_DEPTH)) == D32Sfloat
  {
  }

  /** The plane-aspect masks of a multi-planar format select existing planes: for a
      format with `PlaneCount(f)` planes, PLANE_k selects plane k for k below it. */
  lemma PlaneAspectsWithinCount(f: VkFormat)
    ensures PlaneIndex(f, ASPECT_PLANE_0) == 0
    ensures PlaneCount(f) >= 2 ==> PlaneIndex(f, ASPECT_PLANE_1) < PlaneCount(f)
    ensures PlaneCount(f) >= 3 ==> PlaneIndex(f, ASPECT_PLANE_2) < PlaneCount(f)
  {
  }
}
