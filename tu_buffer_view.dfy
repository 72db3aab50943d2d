/**
 * Turnip's tu_buffer_view_init: the texel-buffer descriptor of a buffer view. The
 * byte range the view covers is cut to 32 bits, divided into elements of the
 * format's block size, and the element count is split into a 15-bit width and a
 * height. The view always samples linearly, with one mip level, and with the swizzle
 * of a view whose mapping names R, G, B, A in order.
 *
 * The descriptor as written never carries the sRGB bit: the statement that fills
 * its first word ends one line before the sRGB term, which is left as an expression
 * statement of its own. `BufferViewInit` follows the code; `BufferViewInitCorrected`
 * sets the bit as image views do.
 */
module TuBufferView {
  import opened Results
  import opened TuFormats
  import opened TuSwizzle
  import opened TuImage
  import opened TuImageView

  /** VK_WHOLE_SIZE (~0ULL). */
  const WHOLE_SIZE: nat := 0xFFFF_FFFF_FFFF_FFFF

  const TWO_TO_32: nat := 0x1_0000_0000

  /** Width of the descriptor's width field: 15 bits. */
  const WIDTH_LIMIT: nat := 0x8000

  /** The parts of VkBufferViewCreateInfo the descriptor depends on. */
  datatype BufferViewCreateInfo = BufferViewCreateInfo(format: VkFormat, offset: nat, range: nat)

  /** The fields of the texel-buffer descriptor, by name. */
  datatype BufferViewDescriptor = BufferViewDescriptor(
    tileMode: TileMode, fmt: HwFormat, mipLevels: nat, swizzle: SwizzleWord, srgb: bool,
    width: nat, height: nat)

  /** The byte range, held in a 32-bit variable: the rest of the buffer from the offset
      for VK_WHOLE_SIZE, else the requested range, either one cut to its low 32 bits. */
  function Range32(bufferSize: nat, info: BufferViewCreateInfo): (r: nat)
    requires info.offset <= bufferSize
    ensures r < TWO_TO_32
    ensures info.range == WHOLE_SIZE && bufferSize - info.offset < TWO_TO_32
            ==> r == bufferSize - info.offset
    ensures info.range != WHOLE_SIZE && info.range < TWO_TO_32 ==> r == info.range
  {
    if info.range == WHOLE_SIZE then (bufferSize - info.offset) % TWO_TO_32
    else info.range % TWO_TO_32
  }

  /** The number of whole elements in the range. */
  function Elements(bufferSize: nat, info: BufferViewCreateInfo, blockSize: nat): (n: nat)
    requires info.offset <= bufferSize && blockSize >= 1
    ensures n * blockSize <= Range32(bufferSize, info) < (n + 1) * blockSize
  {
    Range32(bufferSize, info) / blockSize
  }

  /** The swizzle of a buffer view: the components R, G, B, A, no conversion, the
      color aspect and no limited-Z24S8 workaround. */
  function BufferSwizzle(f: VkFormat): SwizzleWord
  {
    var s := TexSwizzle(CHANNEL_MAPPING, None, f, ASPECT_COLOR, false);
    SwizzleWord(s[0], s[1], s[2], s[3])
  }

  /** The descriptor contents of tu_buffer_view_init, as written: the sRGB bit is
      never set. `fmt` is tu6_format_texture's format for the view format, `blockSize`
      the format's block size in bytes. */
  method BufferViewInit(info: BufferViewCreateInfo, bufferSize: nat, blockSize: nat, fmt: HwFormat)
    returns (d: BufferViewDescriptor)
    requires info.offset <= bufferSize && blockSize >= 1
    ensures d.tileMode == TileLinear && d.fmt == fmt && d.mipLevels == 0
    ensures d.swizzle == BufferSwizzle(info.format)
    ensures !d.srgb
    ensures d.width < WIDTH_LIMIT
    ensures d.width + d.height * WIDTH_LIMIT == Elements(bufferSize, info, blockSize)
  {
    var range: nat;
    if info.range == WHOLE_SIZE {
      range := (bufferSize - info.offset) % TWO_TO_32;
    } else {
      range := info.range % TWO_TO_32;
    }
    var elements := range / blockSize;

    var swizzle := TexSwizzleWord(CHANNEL_MAPPING, None, info.format, ASPECT_COLOR, false);

    // elements & MASK(15) and elements >> 15
    d := BufferViewDescriptor(TileLinear, fmt, 0, swizzle, false,
                              elements % WIDTH_LIMIT, elements / WIDTH_LIMIT);
  }

  /** The descriptor with the sRGB bit set for sRGB formats, as image views set it;
      `srgbFormat` is vk_format_is_srgb of the view format. */
  method BufferViewInitCorrected(info: BufferViewCreateInfo, bufferSize: nat, blockSize: nat,
                                 fmt: HwFormat, srgbFormat: bool)
    returns (d: BufferViewDescriptor)
    requires info.offset <= bufferSize && blockSize >= 1
    ensures d.tileMode == TileLinear && d.fmt == fmt && d.mipLevels == 0
    ensures d.swizzle == BufferSwizzle(info.format)
    ensures d.srgb <==> srgbFormat
    ensures d.width < WIDTH_LIMIT
    ensures d.width + d.height * WIDTH_LIMIT == Elements(bufferSize, info, blockSize)
  {
    d := BufferViewInit(info, bufferSize, blockSize, fmt);
    d := d.(srgb := srgbFormat);
  }

  /** The width and height fields recover the element count, and the split is the only
      one with a width below 2^15: any width w < 2^15 and height h with
      w + h * 2^15 == elements are the descriptor's. */
  lemma WidthHeightSplit(elements: nat, w: nat, h: nat)
    requires w < WIDTH_LIMIT && w + h * WIDTH_LIMIT == elements
    ensures w == elements % WIDTH_LIMIT && h == elements / WIDTH_LIMIT
  {
  }

  /** A view of the whole buffer from an offset covers the rest of the buffer (when it
      fits in 32 bits) and holds as many elements as fit in it. */
  lemma WholeSizeRange(bufferSize: nat, info: BufferViewCreateInfo, blockSize: nat)
    requires info.offset <= bufferSize && blockSize >= 1
    requires info.range == WHOLE_SIZE && bufferSize - info.offset < TWO_TO_32
    ensures Elements(bufferSize, info, blockSize) == (bufferSize - info.offset) / blockSize
  {
  }

  /** A buffer view samples its format's channels in their base order: the swizzle is
      the base swizzle of the format for the color aspect. */
  lemma BufferSwizzleIsBase(f: VkFormat)
    ensures var s := BaseSwizzle(f, ASPECT_COLOR, false);
            BufferSwizzle(f) == SwizzleWord(s[0], s[1], s[2], s[3])
  {
    TexSwizzleOfIdentityViews(f, ASPECT_COLOR, false);
  }

  /** The discrepancy: for an sRGB format the descriptor as written lacks the sRGB bit
      that the corrected descriptor, like an image view's, carries; in every other
      field the two agree. */
  method SrgbBitDropped(info: BufferViewCreateInfo, bufferSize: nat, blockSize: nat, fmt: HwFormat)
    returns (asWritten: BufferViewDescriptor, corrected: BufferViewDescriptor)
    requires info.offset <= bufferSize && blockSize >= 1
    ensures !asWritten.srgb && corrected.srgb
    ensures asWritten.(srgb := true) == corrected
  {
    asWritten := BufferViewInit(info, bufferSize, blockSize, fmt);
    corrected := BufferViewInitCorrected(info, bufferSize, blockSize, fmt, true);
    WidthHeightSplit(Elements(bufferSize, info, blockSize), asWritten.width, asWritten.height);
    WidthHeightSplit(Elements(bufferSize, info, blockSize), corrected.width, corrected.height);
  }
}
