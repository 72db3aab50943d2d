/**
 * Texture swizzles of Turnip's descriptors: a per-format base swizzle over the
 * four hardware source selectors, with the view's Vulkan component mapping (and
 * that of a sampler Y'CbCr conversion) composed on top of it.
 */
module TuSwizzle {
  import opened Results
  import opened TuFormats

  /** A hardware swizzle selector (A6XX_TEX_X .. A6XX_TEX_ONE): one of the four
      fetched channels, or a constant. */
  datatype TexSwiz = TexX | TexY | TexZ | TexW | TexZero | TexOne

  /** VkComponentSwizzle. */
  datatype ComponentSwizzle = Identity | SwizzleZero | SwizzleOne | R | G | B | A {
    /** True of R, G, B and A: the values that name a source channel. */
    predicate IsChannel() { R? || G? || B? || A? }

    /** The source slot a channel value reads (its distance from R). */
    function ChannelSlot(): (k: nat)
      requires IsChannel()
      ensures k < 4
    {
      match this
      case R => 0
      case G => 1
      case B => 2
      case A => 3
    }
  }

  /** VkComponentMapping: what each of the r, g, b, a outputs of a view reads. */
  datatype ComponentMapping = ComponentMapping(r: ComponentSwizzle, g: ComponentSwizzle,
                                               b: ComponentSwizzle, a: ComponentSwizzle)
  {
    /** The mapping of output slot i (r, g, b, a in that order). */
    function At(i: nat): ComponentSwizzle
      requires i < 4
    {
      if i == 0 then r else if i == 1 then g else if i == 2 then b else a
    }
  }

  const IDENTITY_MAPPING := ComponentMapping(Identity, Identity, Identity, Identity)

  /** The mapping a buffer view uses: every output reads its own channel by name. */
  const CHANNEL_MAPPING := ComponentMapping(R, G, B, A)

  /** The four SWIZ_X/Y/Z/W fields of texture descriptor word 0. */
  datatype SwizzleWord = SwizzleWord(x: TexSwiz, y: TexSwiz, z: TexSwiz, w: TexSwiz)

  /** A swizzle: four selectors, one per output slot. */
  type Swizzle = s: seq<TexSwiz> | |s| == 4 witness [TexX, TexY, TexZ, TexW]

  const IDENTITY_SWIZZLE: Swizzle := [TexX, TexY, TexZ, TexW]

  /** What output slot i holds after the mapping value c is applied to the source swizzle. */
  function Select(src: Swizzle, i: nat, c: ComponentSwizzle): TexSwiz
    requires i < 4
  {
    match c
    case Identity => src[i]
    case SwizzleZero => TexZero
    case SwizzleOne => TexOne
    case _ => src[c.ChannelSlot()]
  }

  /** The swizzle compose_swizzle leaves behind: each slot is computed from the
      source swizzle as it was on entry. */
  function Composed(src: Swizzle, m: ComponentMapping): Swizzle
  {
    [Select(src, 0, m.r), Select(src, 1, m.g), Select(src, 2, m.b), Select(src, 3, m.a)]
  }

  /** compose_swizzle: applies `mapping` in place on top of the four selectors in `swiz`,
      reading from a copy taken on entry. */
  method ComposeSwizzle(swiz: array<TexSwiz>, mapping: ComponentMapping)
    requires swiz.Length == 4
    modifies swiz
    ensures swiz[..] == Composed(old(swiz[..]), mapping)
  {
    var src: Swizzle := swiz[..];
    var vk := [mapping.r, mapping.g, mapping.b, mapping.a];
    for i := 0 to 4
      invariant forall k | 0 <= k < i :: swiz[k] == Select(src, k, mapping.At(k))
      invariant forall k | i <= k < 4 :: swiz[k] == src[k]
    {
      match vk[i]
      case Identity =>
        swiz[i] := src[i];
      case SwizzleZero =>
        swiz[i] := TexZero;
      case SwizzleOne =>
        swiz[i] := TexOne;
      case _ =>
        swiz[i] := src[vk[i].ChannelSlot()];
    }
  }

  /** Mapping value of slot i with IDENTITY replaced by the slot's own channel. */
  function Explicit(m: ComponentMapping, i: nat): (c: ComponentSwizzle)
    requires i < 4
    ensures !c.Identity?
    ensures forall s: Swizzle :: Select(s, i, c) == Select(s, i, m.At(i))
  {
    var c := m.At(i);
    if c.Identity? then [R, G, B, A][i] else c
  }

  /** The single mapping that has the effect of applying `first` and then `second`. */
  function Then(first: ComponentMapping, second: ComponentMapping): ComponentMapping
  {
    var slot := (i: nat) requires i < 4 =>
      var c := second.At(i);
      if c.Identity? then Explicit(first, i)
      else if c.IsChannel() then Explicit(first, c.ChannelSlot())
      else c;
    ComponentMapping(slot(0), slot(1), slot(2), slot(3))
  }

  /** An all-IDENTITY mapping leaves a swizzle unchanged. */
  lemma ComposeIdentity(s: Swizzle)
    ensures Composed(s, IDENTITY_MAPPING) == s
  {
  }

  /** Naming every channel in order (R, G, B, A) is the same as IDENTITY. */
  lemma ComposeChannelsInOrder(s: Swizzle)
    ensures Composed(s, CHANNEL_MAPPING) == s
  {
  }

  /** ZERO and ONE select the constants whatever the source swizzle is, and a channel
      value reads the entry swizzle's slot for that channel. */
  lemma {:induction false} ComposeSlot(s: Swizzle, m: ComponentMapping, i: nat)
    requires i < 4
    ensures m.At(i).SwizzleZero? ==> Composed(s, m)[i] == TexZero
    ensures m.At(i).SwizzleOne? ==> Composed(s, m)[i] == TexOne
    ensures m.At(i).Identity? ==> Composed(s, m)[i] == s[i]
    ensures m.At(i).IsChannel() ==> Composed(s, m)[i] == s[m.At(i).ChannelSlot()]
  {
  }

  /** Composing two mappings one after the other, as tu6_texswiz does with the view's
      mapping and the conversion's, equals composing their combination once. */
  lemma ComposeTwice(s: Swizzle, first: ComponentMapping, second: ComponentMapping)
    ensures Composed(Composed(s, first), second) == Composed(s, Then(first, second))
  {
    var once := Composed(s, first);
    forall i | 0 <= i < 4
      ensures Composed(once, second)[i] == Composed(s, Then(first, second))[i]
    {
      ComposeSlot(once, second, i);
      ComposeSlot(s, Then(first, second), i);
      var c := second.At(i);
      if c.Identity? {
        ComposeSlot(s, first, i);
      } else if c.IsChannel() {
        ComposeSlot(s, first, c.ChannelSlot());
      }
    }
  }

  /** The four YUV formats whose chroma is fetched out of order: luma first. */
  predicate IsYuv(f: VkFormat)
  {
    f == G8B8G8R8Unorm422 || f == B8G8R8G8Unorm422 || IsYuv420(f)
  }

  /** The swizzle tu6_texswiz starts from before any mapping is applied. */
  function BaseSwizzle(f: VkFormat, aspect: AspectFlags, limitedZ24s8: bool): Swizzle
  {
    if IsYuv(f) then [TexZ, TexX, TexY, TexW]
    else if f == Bc1RgbUnormBlock || f == Bc1RgbSrgbBlock then [TexX, TexY, TexZ, TexOne]
    else if f == D24UnormS8Uint && aspect == ASPECT_STENCIL then
      [if limitedZ24s8 then TexW else TexY, TexZero, TexZ, TexW]
    else IDENTITY_SWIZZLE
  }

  /** The swizzle of a view: the base swizzle, then the view's mapping, then the
      Y'CbCr conversion's mapping when there is a conversion. */
  function TexSwizzle(comps: ComponentMapping, conversion: Option<ComponentMapping>,
                      f: VkFormat, aspect: AspectFlags, limitedZ24s8: bool): Swizzle
  {
    var viewed := Composed(BaseSwizzle(f, aspect, limitedZ24s8), comps);
    match conversion
    case None => viewed
    case Some(m) => Composed(viewed, m)
  }

  /** tu6_texswiz: the swizzle fields of a texture descriptor. */
  method TexSwizzleWord(comps: ComponentMapping, conversion: Option<ComponentMapping>,
                        f: VkFormat, aspect: AspectFlags, limitedZ24s8: bool)
    returns (word: SwizzleWord)
    ensures var s := TexSwizzle(comps, conversion, f, aspect, limitedZ24s8);
            word == SwizzleWord(s[0], s[1], s[2], s[3])
  {
    var swiz := new TexSwiz[4](_ => TexX);
    swiz[0], swiz[1], swiz[2], swiz[3] := TexX, TexY, TexZ, TexW;

    if IsYuv(f) {
      swiz[0] := TexZ;
      swiz[1] := TexX;
      swiz[2] := TexY;
    } else if f == Bc1RgbUnormBlock || f == Bc1RgbSrgbBlock {
      // the same hardware format serves BC1_RGB and BC1_RGBA
      swiz[3] := TexOne;
    } else if f == D24UnormS8Uint {
      if aspect == ASPECT_STENCIL {
        if limitedZ24s8 {
          swiz[0] := TexW;      // stencil sampled through an 8_8_8_8 UINT format
          swiz[1] := TexZero;
        } else {
          swiz[0] := TexY;      // stencil sampled through Z24_UINT_S8_UINT
          swiz[1] := TexZero;
        }
      }
    }
    assert swiz[..] == BaseSwizzle(f, aspect, limitedZ24s8);

    ComposeSwizzle(swiz, comps);
    if conversion.Some? {
      ComposeSwizzle(swiz, conversion.value);
    }
    word := SwizzleWord(swiz[0], swiz[1], swiz[2], swiz[3]);
  }

  /** Base swizzles: YUV formats read (Z, X, Y, W); BC1_RGB forces alpha to ONE; a
      stencil-only view of D24S8 reads the stencil byte (W under the limited-Z24S8
      workaround, else Y) into slot 0 and ZERO into slot 1; every other format and
      aspect starts from the identity. */
  lemma {:induction false} BaseSwizzleCases(f: VkFormat, aspect: AspectFlags, limitedZ24s8: bool)
    ensures IsYuv(f) ==> BaseSwizzle(f, aspect, limitedZ24s8) == [TexZ, TexX, TexY, TexW]
    ensures (f == Bc1RgbUnormBlock || f == Bc1RgbSrgbBlock)
            ==> BaseSwizzle(f, aspect, limitedZ24s8)[3] == TexOne
    ensures f == D24UnormS8Uint && aspect == ASPECT_STENCIL ==>
              BaseSwizzle(f, aspect, limitedZ24s8)[0] == (if limitedZ24s8 then TexW else TexY) &&
              BaseSwizzle(f, aspect, limitedZ24s8)[1] == TexZero
    ensures !IsYuv(f) && f != Bc1RgbUnormBlock && f != Bc1RgbSrgbBlock &&
            !(f == D24UnormS8Uint && aspect == ASPECT_STENCIL)
            ==> BaseSwizzle(f, aspect, limitedZ24s8) == IDENTITY_SWIZZLE
  {
  }

  /** A view with an identity mapping and no conversion sees exactly the base swizzle;
      so does a buffer view, whose mapping names R, G, B, A in order. */
  lemma TexSwizzleOfIdentityViews(f: VkFormat, aspect: AspectFlags, limitedZ24s8: bool)
    ensures TexSwizzle(IDENTITY_MAPPING, None, f, aspect, limitedZ24s8)
            == BaseSwizzle(f, aspect, limitedZ24s8)
    ensures TexSwizzle(CHANNEL_MAPPING, None, f, aspect, limitedZ24s8)
            == BaseSwizzle(f, aspect, limitedZ24s8)
  {
    ComposeIdentity(BaseSwizzle(f, aspect, limitedZ24s8));
    ComposeChannelsInOrder(BaseSwizzle(f, aspect, limitedZ24s8));
  }

  /** A view with a conversion behaves as a view with one combined mapping. */
  lemma TexSwizzleWithConversion(comps: ComponentMapping, conv: ComponentMapping,
                                 f: VkFormat, aspect: AspectFlags, limitedZ24s8: bool)
    ensures TexSwizzle(comps, Some(conv), f, aspect, limitedZ24s8)
            == TexSwizzle(Then(comps, conv), None, f, aspect, limitedZ24s8)
  {
    ComposeTwice(BaseSwizzle(f, aspect, limitedZ24s8), comps, conv);
  }
}
