# Turnip image layout policy and Panfrost framebuffer format tables, in Dafny

This project models two pieces of format and layout policy from Mesa and proves
properties about them.

**Turnip** is the Vulkan driver for Adreno a6xx GPUs, in `src/freedreno/vulkan/tu_image.c`. The model covers:

- the plane tables of multi-planar and separate-stencil formats
- texture swizzle composition (`compose_swizzle`, `tu6_texswiz`)
- the tiling and UBWC decision of `tu_image_create`. UBWC is Adreno's lossless framebuffer compression.
- the queue-family mask of `tu_image_create`
- the per-plane sizing and placement loop of `tu_image_create`, including rejection of explicit layouts
- DRM format-modifier selection in `tu_CreateImage`, and the modifier `tu_GetImageDrmFormatModifierPropertiesEXT` reports back
- the size, depth, format, swizzle and `need_y2_align` computations of `tu_image_view_init`
- the range and element arithmetic of `tu_buffer_view_init`

**Panfrost** is in `src/panfrost/util/pan_lower_framebuffer.c`. The model covers the unpacked ALU type chosen for a framebuffer format and the load class of a format under the GPU's quirks.

Modules, one per file:

| module | file | what it holds |
|---|---|---|
| `Results` | `results.dfy` | `Option` and `Result` |
| `TuFormats` | `tu_formats.dfy` | `tu6_plane_count`, `tu6_plane_format`, `tu6_plane_index` |
| `TuSwizzle` | `tu_swizzle.dfy` | `compose_swizzle` as a method over a 4-entry array, and `tu6_texswiz` |
| `TuImage` | `tu_image.dfy` | `tu_image_create`, `tu_CreateImage`, and the modifier report |
| `TuImageView` | `tu_image_view.dfy` | the descriptor computations of `tu_image_view_init` |
| `TuBufferView` | `tu_buffer_view.dfy` | `tu_buffer_view_init` |
| `PanLowerFramebuffer` | `pan_lower_framebuffer.dfy` | `pan_unpacked_type_for_format` and `pan_format_class_load` |

Some code outside these two files is called but not shown, so it enters the model as parameters:

- The layout engine `fdl6_layout` is a function `LayoutEngine` from the request each plane makes to the layout it returns, or `None` when it rejects an explicit layout.
- The per-level layout queries (`fdl_tile_mode`, `fdl_ubwc_enabled`), the format table `tu6_format_texture` and `vk_format_is_srgb` are function parameters as well.
- The format facts the tiling decision reads (subsampled layout, compressed, depth or stencil) are a `FormatTraits` record.
- The device state it reads (the no-UBWC debug flag and the limited-Z24S8 workaround), together with `TU_MAX_QUEUE_FAMILIES`, the driver's fixed maximum number of queue families, taken as a parameter, form a `DeviceConfig` record.

Register words are modelled as records of named fields. Nothing is packed into bits.

The imperative parts stay imperative:

- `compose_swizzle` rewrites an `array` in place.
- `tu6_texswiz` builds its swizzle in an array.
- The queue-family loop, the modifier loop, the plane loop and the per-level offset loop are `for` or `while` loops with invariants.

Each method is proved against a specification function. The lemmas state the promised properties about that function.

## Model

| member | source | states |
|---|---|---|
| TuFormats.PlaneCount | src/freedreno/vulkan/tu_image.c:39-51 | every format has one to three planes |
| TuFormats.PlaneCountCases | src/freedreno/vulkan/tu_image.c:39-51 | two planes exactly for G8_B8R8_2PLANE_420 and D32_SFLOAT_S8_UINT, three exactly for G8_B8_R8_3PLANE_420, one for every other format |
| TuFormats.SinglePlaneFormatUnchanged | src/freedreno/vulkan/tu_image.c:53-67 | the plane format of a single-plane format is the format itself, for any plane number |
| TuFormats.PlaneFormatIsSinglePlane | src/freedreno/vulkan/tu_image.c:53-67 | every plane is laid out in a single-plane format, and taking the plane format again changes nothing |
| TuFormats.PlaneIndexCases | src/freedreno/vulkan/tu_image.c:69-82 | PLANE_1 gives plane 1 and PLANE_2 gives plane 2; STENCIL gives plane 1 exactly for D32S8; every other mask gives plane 0; the index is always below 3 |
| TuFormats.SeparateStencilPlane | src/freedreno/vulkan/tu_image.c:39-82 | for D32S8, the stencil aspect selects an existing plane laid out as S8_UINT, and the depth aspect selects plane 0, laid out as D32_SFLOAT |
| TuFormats.PlaneAspectsWithinCount | src/freedreno/vulkan/tu_image.c:39-82 | the PLANE_k aspects of a format with more than k planes select an existing plane |
| TuSwizzle.ComposeSwizzle | src/freedreno/vulkan/tu_image.c:298-323 | after the call the array holds the composition of the mapping over the array as it was on entry: every slot reads the pre-call selectors, not the partly updated ones |
| TuSwizzle.ComposeIdentity | src/freedreno/vulkan/tu_image.c:305-308 | an all-IDENTITY mapping leaves any swizzle unchanged |
| TuSwizzle.ComposeChannelsInOrder | src/freedreno/vulkan/tu_image.c:305-311 | the mapping R, G, B, A leaves any swizzle unchanged |
| TuSwizzle.Explicit | src/freedreno/vulkan/tu_image.c:304-311 | IDENTITY in slot i acts as channel i: the mapping entry with IDENTITY replaced by the slot's own channel is never IDENTITY and selects the same value from every source swizzle |
| TuSwizzle.ComposeSlot | src/freedreno/vulkan/tu_image.c:304-322 | ZERO and ONE give the constant selectors whatever the source is; IDENTITY keeps the slot's own entry selector; R..A read the entry selector of that channel |
| TuSwizzle.ComposeTwice | src/freedreno/vulkan/tu_image.c:366-368 | composing the view mapping and then the conversion mapping equals composing a single combined mapping once |
| TuSwizzle.TexSwizzleWord | src/freedreno/vulkan/tu_image.c:325-374 | the four swizzle fields are the base swizzle of the format and aspect, composed with the view's mapping and then with the conversion's mapping when there is one |
| TuSwizzle.BaseSwizzleCases | src/freedreno/vulkan/tu_image.c:330-364 | the base swizzle `BaseSwizzle`, by case: YUV formats start from (Z, X, Y, W); BC1_RGB forces slot 3 to ONE; a stencil-only D24S8 view reads W (limited Z24S8) or Y into slot 0 and ZERO into slot 1; all else starts from the identity |
| TuSwizzle.TexSwizzleOfIdentityViews | src/freedreno/vulkan/tu_image.c:325-368 | with an identity or R, G, B, A mapping and no conversion, the view sees exactly the base swizzle |
| TuSwizzle.TexSwizzleWithConversion | src/freedreno/vulkan/tu_image.c:366-368 | a view with a Y'CbCr conversion has the swizzle of a view with the combined mapping and no conversion |
| TuImage.FamiliesBelow | src/freedreno/vulkan/tu_image.c:124 | the mask (1 << n) - 1 holds exactly the bits below n |
| TuImage.QueueFamilyMask | src/freedreno/vulkan/tu_image.c:119-128 | the mask is empty for exclusive sharing; for concurrent sharing bit b is set iff family b is listed, or VK_QUEUE_FAMILY_EXTERNAL is listed and b is below `TU_MAX_QUEUE_FAMILIES` (a parameter); every bit is below 32 |
| TuImage.ChooseTiling | src/freedreno/vulkan/tu_image.c:134-217 | the image is linear iff a linear-forcing rule holds (linear tiling, the LINEAR modifier, a subsampled layout, a mutable colour format, a 2- or 3-plane 4:2:0 format), else TILE6_3; UBWC is on iff not disabled for debugging, not linear, and no UBWC-only rule holds |
| TuImage.UbwcRequiresTiling | src/freedreno/vulkan/tu_image.c:134-217 | no rule re-enables anything: UBWC implies tiling, linear implies no UBWC, and linear tiling, the LINEAR modifier, 4:2:0 formats, compression, S8_UINT, depth > 1 and storage usage each rule UBWC out |
| TuImage.PlaneExtent | src/freedreno/vulkan/tu_image.c:228-235 | chroma planes of 4:2:0 formats are half the image size rounded up (2e-1 <= size <= 2e); all other planes keep the image size |
| TuImage.PlaneRequestProperties | src/freedreno/vulkan/tu_image.c:222-272 | every plane uses the chosen tile mode; no plane has UBWC unless the image does; plane 0 has the image size; chroma planes have ceil(w/2) x ceil(h/2); the D32S8 stencil plane is S8_UINT without UBWC; an explicit layout is passed exactly when layouts were given |
| TuImage.AlignToPage | src/freedreno/vulkan/tu_image.c:278 | the result is the least multiple of 4096 at or above the input |
| TuImage.MaxSize | src/freedreno/vulkan/tu_image.c:286 | the running total is an upper bound of all plane sizes, is attained by one of them, and is 0 for no planes |
| TuImage.ShiftPlane | src/freedreno/vulkan/tu_image.c:277-284 | the offsets of the first mipLevels slices and UBWC slices, and the size, each grow by the offset; the remaining table entries are unchanged |
| TuImage.ShiftedStartsAt | src/freedreno/vulkan/tu_image.c:277-284 | after a shift, the used slices, the UBWC slices and the end of the plane all lie at or past the shift |
| TuImage.PlaneArguments | src/freedreno/vulkan/tu_image.c:222-260 | a plane's layout request is made exactly unless explicit layouts are given for an image that is not one level, one layer and depth 1; the request made is the plane's specified request; UBWC turns off from the D32S8 stencil plane on |
| TuImage.PlaceNext | src/freedreno/vulkan/tu_image.c:277-286 | the new plane is appended, moved past the running total rounded up to 4096 unless layouts are explicit or it is plane 0, and the running total becomes the maximum size so far |
| TuImage.LayoutPlanes | src/freedreno/vulkan/tu_image.c:222-295 | the loop fails with INVALID_DRM_FORMAT_MODIFIER_PLANE_LAYOUT exactly when explicit layouts are given for a non-simple image or the layout engine rejects a plane; on success the layouts are the engine's layouts placed in order, and the total size is the largest plane size |
| TuImage.RawPlanes | src/freedreno/vulkan/tu_image.c:262-272 | when no plane fails, the engine's layouts, one per plane of the format, each the engine's answer to that plane's request |
| TuImage.PlacePlanes | src/freedreno/vulkan/tu_image.c:277-286 | the planes placed in order, one placed layout per engine layout; its properties are in PlacedPlaneAt, PlanesDoNotOverlap and PlacePlanesKeepsExplicit |
| TuImage.PlacedPlaneAt | src/freedreno/vulkan/tu_image.c:277-286 | plane i is placed from the planes before it alone: later planes do not change earlier ones |
| TuImage.PlanesDoNotOverlap | src/freedreno/vulkan/tu_image.c:277-286 | without explicit layouts, plane i > 0 starts at a 4096-aligned offset at or past the end of every earlier plane; it is the engine's layout shifted by that offset; its slices, UBWC slices and end lie past that start |
| TuImage.PlacePlanesKeepsExplicit | src/freedreno/vulkan/tu_image.c:247-286 | with explicit layouts every plane keeps the engine's layout, and plane 0 is never moved |
| TuImage.ImageCreate | src/freedreno/vulkan/tu_image.c:84-296 | the created image records the create info, exclusive sharing, the queue-family mask and the external-memory flag; it has one placed layout per plane and the largest plane size as its size; it fails exactly when the plane loop fails |
| TuImage.ChooseModifier | src/freedreno/vulkan/tu_image.c:691-721 | the loop over the modifier list ends with QCOM_COMPRESSED iff it is listed, else LINEAR; explicit modifiers and their plane layouts are passed through; scanout WSI images get LINEAR; every other image gets INVALID |
| TuImage.ChosenModifierCases | src/freedreno/vulkan/tu_image.c:694-720 | the chosen modifier `ChosenModifier` and plane layouts `ChosenPlaneLayouts` by case, in both directions: listed QCOM_COMPRESSED iff compressed, LINEAR iff not listed, LINEAR iff scanout outside modifier tiling, plane layouts only with an explicit modifier |
| TuImage.CreateImage | src/freedreno/vulkan/tu_image.c:676-724 | vkCreateImage creates the image with the chosen modifier and explicit plane layouts |
| TuImage.DrmFormatModifierOf | src/freedreno/vulkan/tu_image.c:782-787 | the reported modifier is LINEAR iff plane 0 is untiled; QCOM_COMPRESSED iff tiled with UBWC metadata; INVALID iff tiled without it |
| TuImage.ReportedModifierRoundTrip | src/freedreno/vulkan/tu_image.c:782-787 | provided the layout engine keeps plane 0's requested tile mode and answers a UBWC request with UBWC metadata: an image created with LINEAR reports LINEAR; an image created with QCOM_COMPRESSED whose tiling decision keeps UBWC (the assertion at tu_image.c:219-220) asks for UBWC on plane 0 and reports QCOM_COMPRESSED |
| TuImageView.ViewedImageOf | src/freedreno/vulkan/tu_image.c:440-444 | a view reads the created image's type, format, depth, layer and level counts, and each plane's level-0 size and tile mode from that plane's layout |
| TuImageView.CreatedImageViewed | src/freedreno/vulkan/tu_image.c:222-286 | an image tu_image_create produced has, as seen by a view, one plane per plane of its format, the create info's type, size and counts, and on each plane the size and tile mode the layout engine returned: placement moves offsets only |
| TuImageView.ShiftRightDivides | src/freedreno/vulkan/tu_image.c:443-444 | shifting right by level is division by 2^level, rounding down |
| TuImageView.Minify | src/freedreno/vulkan/tu_image.c:443-444 | a dimension at a mip level is at least 1 and never larger than the level-0 dimension |
| TuImageView.MinifyDivides | src/freedreno/vulkan/tu_image.c:443-444 | a dimension at a level is floor(v / 2^level), or 1 once that reaches 0 |
| TuImageView.MinifyMonotone | src/freedreno/vulkan/tu_image.c:443-448 | deeper mip levels are never larger |
| TuImageView.MinifyBaseLevel | src/freedreno/vulkan/tu_image.c:443-444 | level 0 keeps the size, and a zero size becomes 1 |
| TuImageView.TextureDepth | src/freedreno/vulkan/tu_image.c:450-457 | cube and cube-array views count whole cubes (6d <= layers < 6d + 6); other views count every layer |
| TuImageView.CubeDepth | src/freedreno/vulkan/tu_image.c:450-457 | a cube view over 6k layers is k cubes deep |
| TuImageView.ViewDepthCases | src/freedreno/vulkan/tu_image.c:419-448 | a 3D view's storage depth is the base level's slice count and no more than the image depth; a non-3D view with VK_REMAINING_ARRAY_LAYERS covers the layers from its base to the last; the cubes a cube view of a non-3D image counts, six layers each, fit in the image's layers |
| TuImageView.ViewSize | src/freedreno/vulkan/tu_image.c:443-457 | width and height are the plane's level-0 size at the base level; storage depth is the 3D slice count or the layer count; texture depth divides cubes by 6 |
| TuImageView.ViewFormatCases | src/freedreno/vulkan/tu_image.c:468-469 | the view format `ViewFormat`: a colour view reads the view format; the depth and stencil views of D32S8 read D32_SFLOAT and S8_UINT; any non-colour view reads a single-plane format |
| TuImageView.ViewTexFormats | src/freedreno/vulkan/tu_image.c:479-491 | UBWC D24S8 is read as Z24_UNORM_S8_UINT_AS_R8G8B8A8; the texture format of D24S8 views is chosen by aspect; other formats keep the table's format |
| TuImageView.TexFormatCases | src/freedreno/vulkan/tu_image.c:479-491 | a stencil-only D24S8 view samples 8_8_8_8_UINT (limited Z24S8) or Z24_UINT_S8_UINT; a D24S8 view with the depth aspect samples Z24_UNORM_S8_UINT; other formats keep the table's format |
| TuImageView.StencilViewReadsStencil | src/freedreno/vulkan/tu_image.c:485-491 | for a stencil-only D24S8 view with an identity mapping, the texture format and the swizzle agree: W of 8_8_8_8_UINT under the limited-Z24S8 workaround, else Y of Z24_UINT_S8_UINT, with ZERO in slot 1 |
| TuImageView.NeedY2AlignCases | src/freedreno/vulkan/tu_image.c:638-639 | need_y2_align is never set at the image's last level, and at any other level it is set iff that level is linear |
| TuImageView.ImageViewInit | src/freedreno/vulkan/tu_image.c:407-639 | the view reads the plane its aspect selects and that plane's format; it has that plane's size at the base level, the storage and texture depths, the tile mode of the base level and the descriptor's UBWC FLAG bit (tu_image.c:525, 557) from the base level's UBWC state, the D24S8-adjusted formats, the composed swizzle and the sRGB flag of its format; attachment state (need_y2_align and iview->ubwc_enabled, set after both early returns) is set exactly for renderable non-4:2:0 formats |
| TuBufferView.Range32 | src/freedreno/vulkan/tu_image.c:841-845 | the range is below 2^32; a whole-size view covers the rest of the buffer, and an explicit range is taken as given, whenever the value fits in 32 bits |
| TuBufferView.Elements | src/freedreno/vulkan/tu_image.c:846 | the element count is the number of whole blocks in the range |
| TuBufferView.WholeSizeRange | src/freedreno/vulkan/tu_image.c:841-846 | a whole-size view holds (size - offset) / blocksize elements when the rest of the buffer fits in 32 bits |
| TuBufferView.WidthHeightSplit | src/freedreno/vulkan/tu_image.c:866-868 | the only width below 2^15 and height with width + height * 2^15 == elements are elements & 0x7FFF and elements >> 15 |
| TuBufferView.BufferViewInit | src/freedreno/vulkan/tu_image.c:829-871 | the descriptor as written: linear, the table's format, one level, the R, G, B, A swizzle, no sRGB bit; the width is below 2^15 and width + height * 2^15 is the element count |
| TuBufferView.BufferSwizzleIsBase | src/freedreno/vulkan/tu_image.c:848-864 | a buffer view's swizzle is its format's base colour swizzle |
| TuBufferView.BufferViewInitCorrected | src/freedreno/vulkan/tu_image.c:859-865 | the intended descriptor: as written, except that the sRGB bit is set iff the format is sRGB |
| TuBufferView.SrgbBitDropped | src/freedreno/vulkan/tu_image.c:864-865 | for an sRGB format the descriptor as written lacks the sRGB bit the corrected one carries, and the two agree in every other field |
| PanLowerFramebuffer.FirstNonVoid | src/panfrost/util/pan_lower_framebuffer.c:63 | the first non-void channel: every channel before it is VOID, and None means every channel is VOID |
| PanLowerFramebuffer.FirstNonVoidAfterVoids | src/panfrost/util/pan_lower_framebuffer.c:63 | after any number of VOID channels, the first non-void channel is found at the end of them |
| PanLowerFramebuffer.UnpackedTypeForFormat | src/panfrost/util/pan_lower_framebuffer.c:60-87 | error (void) iff no non-void channel; error (not renderable) iff the channel is fixed-point and not normalized; otherwise float iff normalized or FLOAT, uint or int by signedness, and no narrower than the channel in bit width |
| PanLowerFramebuffer.UnpackedWidthCases | src/panfrost/util/pan_lower_framebuffer.c:68-83 | floats are 32-bit iff the channel is wider than 16 bits, else 16-bit; integers are 8-bit iff the channel is 8 bits, 32-bit iff wider than 16, else 16-bit |
| PanLowerFramebuffer.UnpackedTypeIsSmallestWideEnough | src/panfrost/util/pan_lower_framebuffer.c:38-47 | the type has a width nir offers for its base; it is the narrowest one no narrower than the channel, except that 8-bit integers are kept for channels of exactly 8 bits |
| PanLowerFramebuffer.UnpackedTypeIgnoresVoidPrefix | src/panfrost/util/pan_lower_framebuffer.c:63-70 | leading VOID channels and the channels after the first non-void channel do not change the unpacked type |
| PanLowerFramebuffer.FormatClassLoad | src/panfrost/util/pan_lower_framebuffer.c:89-115 | SOFTWARE only without typed blend loads, and then iff there are no blend packs; NATIVE iff typed loads exist and the format is not one missing a typed load on the GPU |
| PanLowerFramebuffer.NoTypedLoadsTakesPrecedence | src/panfrost/util/pan_lower_framebuffer.c:93-96 | with NO_TYPED_BLEND_LOADS the class depends neither on the format nor on MISSING_LOADS: SOFTWARE with NO_BLEND_PACKS, else PACK |
| PanLowerFramebuffer.MissingLoadsList | src/panfrost/util/pan_lower_framebuffer.c:99-114 | with only MISSING_LOADS, exactly the six listed 10/11-bit formats are PACK and all others NATIVE; with neither quirk every format is NATIVE |
| PanLowerFramebuffer.MoreQuirksNeverHelp | src/panfrost/util/pan_lower_framebuffer.c:89-115 | adding quirks never makes a format's load class more capable (NATIVE > PACK > SOFTWARE) |

## Left out

- Allocation failure (`VK_ERROR_OUT_OF_HOST_MEMORY`), object free and handle conversion are host plumbing. `ImageCreate` has no out-of-memory path.
- The Android gralloc path of `tu_CreateImage` is platform I/O.
- `tu_GetImageSubresourceLayout` and the command-stream helpers `tu_cs_image_*` only read layout-engine results and emit them.
- The layout engine `fdl6_layout` and the `fdl_*` queries are not part of this model. They are parameters, and the model assumes nothing about them; a lemma that needs a fact about the engine's result states it as a premise.
- `LayoutPlanes`, `ImageCreate`: the tile mode and UBWC flag the driver writes into each plane's layout before calling the layout engine (tu_image.c:259-260) are part of the request; the placed layouts take both from the engine's result, so an engine that changes them is not excluded.
- Pitches, layer sizes, UBWC block sizes and pitch alignment in the view descriptors are not modelled. Neither are the 64-bit GPU addresses (`bo->iova` plus offsets) and their `>> 32` splits. All of these come from the layout engine and buffer-object state.
- The bit packing of `A6XX_*` register words is not modelled. Swizzles and descriptors are records of named fields, and the modelled fields of `tu_image_view_init` are collected in one `ImageView` record.
- The storage descriptor, the MRT/2D/blit register values and the stencil-plane addresses of `tu_image_view_init` are not modelled.
- Chroma-midpoint bits and per-plane addresses of 4:2:0 views are not modelled. The model stops where the source returns for those views.
- `tu6_format_texture`, `tu6_format_color`, `vk_format_is_srgb`, the block size of a format and the Vulkan format-classification helpers are not part of this model. Their results are inputs.
- `vk_find_struct_const` pNext walking is replaced by optional fields: `ModifierChain`, the `externalMemory` flag and the `conversion` mapping.
- `ImageCreate`: the assertion that a QCOM_COMPRESSED modifier implies UBWC (tu_image.c:219-220) is a check on computed state. It is neither a precondition nor a proved property, since it depends on the format traits the caller supplies.
- `ImageCreate`: the 32-bit width of `width0`, `height0`, slice offsets and `total_size` is not modelled. Those values are unbounded naturals, so a wrap-around of `(width0 + 1) >> 1` at 2^32 - 1 or of a plane offset is not captured.
- `QueueFamilyMask`: the mask is the set of its set bits rather than a 32-bit word. Indices at or above 32 (undefined shifts in C) are excluded by precondition, as is a `TU_MAX_QUEUE_FAMILIES` of 32 or more.
- `ImageViewInit`: `u_minify` and `tu_get_layerCount` are not part of this model. They are modelled as `max(1, v >> level)` and as "the given count, or the rest from the base for VK_REMAINING_*". The sizes are unbounded naturals, so 32-bit wrap-around is not captured.
- `ImageViewInit`: the descriptor's mip-level count, sample count and view-type fields are not modelled.
- `Range32`: the 64-bit arithmetic of `buffer->size - offset` is not modelled separately. The caller must keep the offset within the buffer (a Vulkan valid-usage rule), and the result is cut to 32 bits as the source's `uint32_t` does.
- `UnpackedTypeForFormat`, `UnpackedTypeIsSmallestWideEnough`: the width bounds compare bit widths only. A float type as wide as the channel does not hold every value of it: a normalized channel wider than 11 bits (R16_UNORM, for one) unpacks to float16, whose 11-bit significand cannot represent all of its levels. The model states the widths the source chooses, not that the conversion is exact.
- `PanLowerFramebuffer.Quirks`: the quirk word is three booleans. The numeric values of MIDGARD_NO_TYPED_BLEND_LOADS, NO_BLEND_PACKS and MIDGARD_MISSING_LOADS live in `panfrost-quirks.h`, which is not part of this model.
- `PanLowerFramebuffer.FirstNonVoid`: `util_format_get_first_non_void_channel` is a scan over the channel list. It is written as a recursive function because it lives outside the modelled file.
- The NIR lowering pass of `pan_lower_framebuffer.c` lies outside the modelled text, which holds only the two tables under their header comment.

## Findings

| source | as written | input that shows it | evidently intended | confidence | as-written member | corrected member |
|---|---|---|---|---|---|---|
| src/freedreno/vulkan/tu_image.c:864-865 | the statement that sets descriptor word 0 ends with `;` after the swizzle term, so the following `COND(vk_format_is_srgb(vfmt), A6XX_TEX_CONST_0_SRGB);` is a separate expression statement whose value is discarded | a buffer view of any sRGB format, e.g. R8G8B8A8_SRGB: the descriptor carries no sRGB bit | the sRGB bit is set for sRGB formats, as `tu_image_view_init` sets it for image views (tu_image.c:496) | high; not executed | TuBufferView.BufferViewInit | TuBufferView.BufferViewInitCorrected |
