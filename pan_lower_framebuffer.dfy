/**
 * Two decision tables of Panfrost's framebuffer lowering for Midgard/Bifrost blend
 * shaders: the unpacked ALU type a framebuffer format is converted to (the narrowest
 * type whose bit width is no smaller than the format's channels), and how a format is loaded
 * (a native typed load, a typed unpack, or conversion in software), which depends
 * on the quirks of the GPU.
 */
module PanLowerFramebuffer {
  import opened Results

  /** util_format_type. */
  datatype ChannelType = Void | Unsigned | Signed | Fixed | Float

  /** util_format_channel_description: type, normalized flag and bit size. */
  datatype Channel = Channel(chanType: ChannelType, normalized: bool, size: nat)

  /** The pipe formats the load table names; every other format is `OtherPipe`. */
  datatype PipeFormat =
    | R11G11B10Float
    | R10G10B10A2Unorm
    | B10G10R10A2Unorm
    | R10G10B10X2Unorm
    | B10G10R10X2Unorm
    | R10G10B10A2Uint
    | OtherPipe(code: nat)

  /** util_format_description: the format and its channels, in order. */
  datatype FormatDescription = FormatDescription(format: PipeFormat, channels: seq<Channel>)

  /** The base type of a nir_alu_type. */
  datatype AluBase = FloatBase | UintBase | IntBase

  /** nir_alu_type: a base type and a bit size. */
  datatype AluType = AluType(base: AluBase, bits: nat)

  datatype UnpackError = VoidFormat | NotRenderable

  // ---------------------------------------------------------------------------
  // pan_unpacked_type_for_format

  /** util_format_get_first_non_void_channel: the index of the first channel whose type
      is not VOID, or None when every channel is VOID. */
  function FirstNonVoid(channels: seq<Channel>): (c: Option<nat>)
    ensures c.Some? ==> c.value < |channels| && !channels[c.value].chanType.Void?
    ensures c.Some? ==> forall j | 0 <= j < c.value :: channels[j].chanType.Void?
    ensures c.None? ==> forall j | 0 <= j < |channels| :: channels[j].chanType.Void?
  {
    if channels == [] then None
    else if !channels[0].chanType.Void? then Some(0)
    else match FirstNonVoid(channels[1..])
         case None => None
         case Some(i) => Some(i + 1)
  }

  /** The source asserts that the first non-void channel is at most 32 bits wide. */
  predicate ChannelFits(desc: FormatDescription)
  {
    var c := FirstNonVoid(desc.channels);
    c.Some? ==> desc.channels[c.value].size <= 32
  }

  /** pan_unpacked_type_for_format: normalized and float channels unpack to a float of
      16 or 32 bits, integer channels to an integer of 8, 16 or 32 bits of the same
      signedness; a format with no non-void channel, or whose first such channel is a
      non-normalized fixed-point channel, has no unpacked type. */
  function UnpackedTypeForFormat(desc: FormatDescription): (r: Result<AluType, UnpackError>)
    requires ChannelFits(desc)
    ensures FirstNonVoid(desc.channels).None? <==> r == Err(VoidFormat)
    ensures r == Err(NotRenderable) <==>
              (var c := FirstNonVoid(desc.channels);
               c.Some? && !desc.channels[c.value].normalized && desc.channels[c.value].chanType.Fixed?)
    ensures r.Ok? ==>
              var ch := desc.channels[FirstNonVoid(desc.channels).value];
              && (r.value.base == FloatBase <==> ch.normalized || ch.chanType.Float?)
              && (r.value.base == UintBase <==> !ch.normalized && ch.chanType.Unsigned?)
              && (r.value.base == IntBase <==> !ch.normalized && ch.chanType.Signed?)
              && ch.size <= r.value.bits
  {
    match FirstNonVoid(desc.channels)
    case None => Err(VoidFormat)
    case Some(c) =>
      var ch := desc.channels[c];
      var large := ch.size > 16;
      var bit8 := ch.size == 8;
      if ch.normalized then Ok(AluType(FloatBase, if large then 32 else 16))
      else match ch.chanType
           case Unsigned => Ok(AluType(UintBase, if bit8 then 8 else if large then 32 else 16))
           case Signed => Ok(AluType(IntBase, if bit8 then 8 else if large then 32 else 16))
           case Float => Ok(AluType(FloatBase, if large then 32 else 16))
           case _ => Err(NotRenderable)
  }

  /** The bit sizes nir offers for each base type the table uses. */
  predicate IsCandidateWidth(base: AluBase, bits: nat)
  {
    if base == FloatBase then bits == 16 || bits == 32 else bits == 8 || bits == 16 || bits == 32
  }

  /** The unpacked type is one nir offers and is the narrowest one of its base type that
      is no narrower than the channel, except that integer channels narrower than 8 bits
      get 16 bits: the 8-bit integer types are kept for channels of exactly 8 bits. */
  lemma UnpackedTypeIsSmallestWideEnough(desc: FormatDescription, w: nat)
    requires ChannelFits(desc) && UnpackedTypeForFormat(desc).Ok?
    ensures var t := UnpackedTypeForFormat(desc).value;
            var ch := desc.channels[FirstNonVoid(desc.channels).value];
            && IsCandidateWidth(t.base, t.bits)
            && (IsCandidateWidth(t.base, w) && ch.size <= w && (w == 8 ==> ch.size == 8) ==> t.bits <= w)
  {
  }

  /** Widths by case: normalized and float channels get 32 bits exactly when wider than
      16; integer channels get 8 bits exactly at 8, 32 exactly when wider than 16, and
      16 otherwise. */
  lemma UnpackedWidthCases(desc: FormatDescription)
    requires ChannelFits(desc) && UnpackedTypeForFormat(desc).Ok?
    ensures var t := UnpackedTypeForFormat(desc).value;
            var ch := desc.channels[FirstNonVoid(desc.channels).value];
            && (t.base == FloatBase ==> (t.bits == 32 <==> ch.size > 16) && (t.bits == 16 <==> ch.size <= 16))
            && (t.base != FloatBase ==>
                  (t.bits == 8 <==> ch.size == 8) && (t.bits == 32 <==> ch.size > 16)
                  && (t.bits == 16 <==> ch.size != 8 && ch.size <= 16))
  {
  }

  /** Only the first non-void channel decides: leading VOID channels and the channels
      after it do not change the unpacked type. */
  lemma {:induction false} UnpackedTypeIgnoresVoidPrefix(f: PipeFormat, ch: Channel, rest: seq<Channel>, n: nat)
    requires !ch.chanType.Void? && ch.size <= 32
    ensures var voids := seq(n, _ => Channel(Void, false, 0));
            ChannelFits(FormatDescription(f, voids + [ch] + rest))
            && UnpackedTypeForFormat(FormatDescription(f, voids + [ch] + rest))
               == UnpackedTypeForFormat(FormatDescription(f, [ch]))
  {
    var voids := seq(n, _ => Channel(Void, false, 0));
    FirstNonVoidAfterVoids(voids, ch, rest);
  }

  lemma {:induction false} FirstNonVoidAfterVoids(voids: seq<Channel>, ch: Channel, rest: seq<Channel>)
    requires forall j | 0 <= j < |voids| :: voids[j].chanType.Void?
    requires !ch.chanType.Void?
    ensures FirstNonVoid(voids + [ch] + rest) == Some(|voids|)
  {
    if voids != [] {
      FirstNonVoidAfterVoids(voids[1..], ch, rest);
      assert (voids + [ch] + rest)[1..] == voids[1..] + [ch] + rest;
    }
  }

  // ---------------------------------------------------------------------------
  // pan_format_class_load

  /** The quirk bits the load table reads: MIDGARD_NO_TYPED_BLEND_LOADS, NO_BLEND_PACKS
      and MIDGARD_MISSING_LOADS. */
  datatype Quirks = Quirks(noTypedBlendLoads: bool, noBlendPacks: bool, missingLoads: bool)

  /** pan_format_class: a native typed load, a typed load followed by an unpack, or
      software conversion. */
  datatype FormatClass = Native | Pack | Software

  /** The 10- and 11-bit formats some GPUs lack typed loads for but can unpack. */
  predicate MissingTypedLoad(f: PipeFormat)
  {
    !f.OtherPipe?
  }

  /** pan_format_class_load: when typed blend loads are missing altogether, formats are
      packed if the GPU has blend packs and converted in software otherwise; when only
      some typed loads are missing, those formats are packed; everything else is loaded
      natively. */
  function FormatClassLoad(desc: FormatDescription, quirks: Quirks): (c: FormatClass)
    ensures quirks.noTypedBlendLoads ==> (c == Software <==> quirks.noBlendPacks)
    ensures c == Software ==> quirks.noTypedBlendLoads
    ensures c == Native <==>
              !quirks.noTypedBlendLoads && !(quirks.missingLoads && MissingTypedLoad(desc.format))
  {
    if quirks.noTypedBlendLoads then
      (if quirks.noBlendPacks then Software else Pack)
    else if quirks.missingLoads then
      match desc.format
      case R11G11B10Float => Pack
      case R10G10B10A2Unorm => Pack
      case B10G10R10A2Unorm => Pack
      case R10G10B10X2Unorm => Pack
      case B10G10R10X2Unorm => Pack
      case R10G10B10A2Uint => Pack
      case _ => Native
    else Native
  }

  /** How capable a load class is: native above pack above software. */
  function Rank(c: FormatClass): nat
  {
    match c
    case Native => 2
    case Pack => 1
    case Software => 0
  }

  /** Every quirk of `q1` is also a quirk of `q2`. */
  predicate FewerQuirks(q1: Quirks, q2: Quirks)
  {
    && (q1.noTypedBlendLoads ==> q2.noTypedBlendLoads)
    && (q1.noBlendPacks ==> q2.noBlendPacks)
    && (q1.missingLoads ==> q2.missingLoads)
  }

  /** NO_TYPED_BLEND_LOADS overrides MISSING_LOADS: with it set, the class does not
      depend on the format or on MISSING_LOADS. */
  lemma NoTypedLoadsTakesPrecedence(d1: FormatDescription, d2: FormatDescription, q: Quirks)
    requires q.noTypedBlendLoads
    ensures FormatClassLoad(d1, q) == FormatClassLoad(d2, q.(missingLoads := !q.missingLoads))
    ensures FormatClassLoad(d1, q) == (if q.noBlendPacks then Software else Pack)
  {
  }

  /** With only MISSING_LOADS among the format-relevant quirks, exactly the six listed
      formats are packed and all others are native; with no quirks at all, every format
      is native. */
  lemma MissingLoadsList(desc: FormatDescription, noBlendPacks: bool)
    ensures FormatClassLoad(desc, Quirks(false, noBlendPacks, true))
            == (if MissingTypedLoad(desc.format) then Pack else Native)
    ensures FormatClassLoad(desc, Quirks(false, noBlendPacks, false)) == Native
  {
  }

  /** More quirks never make a format's load class more capable. */
  lemma MoreQuirksNeverHelp(desc: FormatDescription, q1: Quirks, q2: Quirks)
    requires FewerQuirks(q1, q2)
    ensures Rank(FormatClassLoad(desc, q2)) <= Rank(FormatClassLoad(desc, q1))
  {
  }
}
