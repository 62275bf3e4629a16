/** The colour a municipality's marker gets from its score. */
module Colours {
  import opened Wrappers
  import opened JsNumber
  import opened Records

  /** A red-green-blue triplet, each channel in 0..255. */
  datatype Rgb = Rgb(red: int, green: int, blue: int)

  /** The colours the mapper produces: the no-data white `rgb(255, 255, 255)`,
      a platform colour with an alpha channel, and the opaque white
      `rgba(255, 255, 255, 1)` of an unknown platform. */
  datatype Colour = NoData | Rgba(rgb: Rgb, alpha: real) | OpaqueWhite

  /** The fixed brand colour of each platform. */
  function Brand(p: Platform): (rgb: Rgb)
    ensures 0 <= rgb.red <= 255 && 0 <= rgb.green <= 255 && 0 <= rgb.blue <= 255
  {
    match p
    case Facebook => Rgb(0, 60, 143)
    case Instagram => Rgb(188, 24, 136)
    case Twitter => Rgb(29, 161, 242)
    case YouTube => Rgb(252, 1, 0)
  }

  /** No two platforms share a brand colour. */
  lemma BrandsDistinct(p: Platform, q: Platform)
    requires p != q
    ensures Brand(p) != Brand(q)
  { }

  /** Added to the score to give the alpha channel; the sum is not clamped. */
  const AlphaOffset: real := 0.2

  /** `getColor`: the marker colour for a score under the active platform key. */
  function GetColor(value: Num, social: string): (c: Colour)
    ensures c == NoData <==> value.None?
    ensures c == OpaqueWhite <==> value.Some? && PlatformOf(social).None?
    ensures c.Rgba? <==> value.Some? && PlatformOf(social).Some?
    ensures c.Rgba? ==> c.rgb == Brand(PlatformOf(social).value) && c.alpha - AlphaOffset == value.value
    ensures value.Some? && social == "fb" ==> c == Rgba(Rgb(0, 60, 143), value.value + 0.2)
    ensures value.Some? && social == "ig" ==> c == Rgba(Rgb(188, 24, 136), value.value + 0.2)
    ensures value.Some? && social == "tw" ==> c == Rgba(Rgb(29, 161, 242), value.value + 0.2)
    ensures value.Some? && social == "yt" ==> c == Rgba(Rgb(252, 1, 0), value.value + 0.2)
  {
    if value.None? then NoData
    else match PlatformOf(social)
      case Some(p) => Rgba(Brand(p), value.value + AlphaOffset)
      case None => OpaqueWhite
  }

  /** The platform whose brand colour is `rgb`, if any. */
  function BrandOwner(rgb: Rgb): (p: Option<Platform>)
    ensures p.Some? ==> Brand(p.value) == rgb
    ensures p.None? ==> forall q: Platform :: Brand(q) != rgb
  {
    if rgb == Brand(Facebook) then Some(Facebook)
    else if rgb == Brand(Instagram) then Some(Instagram)
    else if rgb == Brand(Twitter) then Some(Twitter)
    else if rgb == Brand(YouTube) then Some(YouTube)
    else None
  }

  /** Reads a colour back as the platform and score that produced it. */
  function Decode(c: Colour): Option<(Platform, real)> {
    match c
    case Rgba(rgb, alpha) =>
      (match BrandOwner(rgb)
       case Some(p) => Some((p, alpha - AlphaOffset))
       case None => None)
    case _ => None
  }

  /** A platform colour loses nothing: the platform and the exact score can
      be read back from it. */
  lemma ColourRoundTrip(p: Platform, v: real)
    ensures Decode(GetColor(Some(v), Key(p))) == Some((p, v))
  {
  }

  /** Only a colour the mapper can produce for a known platform decodes, and
      decoding it and mapping again gives the same colour. */
  lemma DecodeRoundTrip(c: Colour)
    requires Decode(c).Some?
    ensures GetColor(Some(Decode(c).value.1), Key(Decode(c).value.0)) == c
  {
  }

  /** The alpha channel is not clamped: it exceeds 1 exactly when the score
      exceeds 0.8, and is below 0 exactly when the score is below -0.2. */
  lemma AlphaUnclamped(p: Platform, v: real)
    ensures GetColor(Some(v), Key(p)).alpha > 1.0 <==> v > 0.8
    ensures GetColor(Some(v), Key(p)).alpha < 0.0 <==> v < -0.2
  {
  }
}
