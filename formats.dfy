/** Choice of a renderable half-float texture format (getSupportedFormat).
    Whether the device can render into a format is a question put to the
    device; here it is the parameter `supported`. */
module Formats {

  import opened Wrappers

  /** Internal formats the source asks for.  `Rgba` is the unsized format a
      WebGL 1 context is given instead of the sized half-float ones. */
  datatype InternalFormat = R16F | RG16F | RGBA16F | Rgba

  datatype PixelFormat = Red | Rg | RgbaPixels

  /** The texel type: half float, either built in or from the extension. */
  datatype TexType = HalfFloat | HalfFloatOes

  datatype Format = Format(internalFormat: InternalFormat, format: PixelFormat)

  type SupportCheck = (InternalFormat, PixelFormat, TexType) -> bool

  /** Number of colour channels of a sized half-float format. */
  function Channels(f: InternalFormat): nat
  {
    match f
    case R16F => 1
    case RG16F => 2
    case RGBA16F => 4
    case Rgba => 4
  }

  /** How many fallback steps remain below a format. */
  function Rank(f: InternalFormat): nat
  {
    match f
    case R16F => 2
    case RG16F => 1
    case _ => 0
  }

  /** The formats tried, in order, when `internalFormat` is asked for. */
  function FallbackChain(internalFormat: InternalFormat, format: PixelFormat): seq<Format>
    decreases Rank(internalFormat)
  {
    [Format(internalFormat, format)] +
    match internalFormat
    case R16F => FallbackChain(RG16F, Rg)
    case RG16F => FallbackChain(RGBA16F, RgbaPixels)
    case _ => []
  }

  /** The first format of `chain` the device supports, if any. */
  function FirstSupported(supported: SupportCheck, chain: seq<Format>, texType: TexType): Option<Format>
  {
    if chain == [] then None
    else if supported(chain[0].internalFormat, chain[0].format, texType) then Some(chain[0])
    else FirstSupported(supported, chain[1..], texType)
  }

  /** If the requested format is not renderable, fall back from R16F to RG16F
      and from RG16F to RGBA16F; any other unsupported format gives null. */
  function GetSupportedFormat(supported: SupportCheck, internalFormat: InternalFormat,
                              format: PixelFormat, texType: TexType): (r: Option<Format>)
    ensures r.Some? ==> supported(r.value.internalFormat, r.value.format, texType)
    ensures r.Some? ==> Channels(r.value.internalFormat) >= Channels(internalFormat)
    ensures supported(internalFormat, format, texType) ==> r == Some(Format(internalFormat, format))
    decreases Rank(internalFormat)
  {
    if !supported(internalFormat, format, texType) then
      match internalFormat
      case R16F => GetSupportedFormat(supported, RG16F, Rg, texType)
      case RG16F => GetSupportedFormat(supported, RGBA16F, RgbaPixels, texType)
      case _ => None
    else
      Some(Format(internalFormat, format))
  }

  /** The fallback returns exactly the first renderable format of the chain,
      and null exactly when no format of the chain is renderable. */
  lemma {:induction false} SupportedFormatIsFirstOfChain(supported: SupportCheck, internalFormat: InternalFormat,
                                                         format: PixelFormat, texType: TexType)
    ensures GetSupportedFormat(supported, internalFormat, format, texType)
            == FirstSupported(supported, FallbackChain(internalFormat, format), texType)
    ensures GetSupportedFormat(supported, internalFormat, format, texType).None? <==>
            forall k :: 0 <= k < |FallbackChain(internalFormat, format)| ==>
              !supported(FallbackChain(internalFormat, format)[k].internalFormat,
                         FallbackChain(internalFormat, format)[k].format, texType)
    decreases Rank(internalFormat)
  {
    var chain := FallbackChain(internalFormat, format);
    assert chain[0] == Format(internalFormat, format);
    match internalFormat
    case R16F =>
      SupportedFormatIsFirstOfChain(supported, RG16F, Rg, texType);
      assert chain[1..] == FallbackChain(RG16F, Rg);
      NoneIffNoneSupported(supported, chain, texType);
    case RG16F =>
      SupportedFormatIsFirstOfChain(supported, RGBA16F, RgbaPixels, texType);
      assert chain[1..] == FallbackChain(RGBA16F, RgbaPixels);
      NoneIffNoneSupported(supported, chain, texType);
    case RGBA16F =>
      assert chain[1..] == [];
      NoneIffNoneSupported(supported, chain, texType);
    case Rgba =>
      assert chain[1..] == [];
      NoneIffNoneSupported(supported, chain, texType);
  }

  lemma {:induction false} NoneIffNoneSupported(supported: SupportCheck, chain: seq<Format>, texType: TexType)
    ensures FirstSupported(supported, chain, texType).None? <==>
            forall k :: 0 <= k < |chain| ==> !supported(chain[k].internalFormat, chain[k].format, texType)
  {
    if chain != [] {
      NoneIffNoneSupported(supported, chain[1..], texType);
      assert forall k :: 1 <= k < |chain| ==> chain[k] == chain[1..][k - 1];
    }
  }
}
