/**
 * The race and game data that the styling station reads: colours, skin-colour
 * genes, colour generators, channel rules and body addons. None of it is
 * changed by the styling station; the floating-point colour arithmetic it
 * calls is supplied from outside as a ColorArithmetic record.
 */
module RaceData {

  datatype Option<T> = None | Some(value: T)

  /** A Unity colour. Only its alpha component is inspected by the core. */
  datatype Color = Color(r: real, g: real, b: real, a: real)

  /** A skin-colour gene, as listed in PawnSkinColors.SkinColorGenesInOrder. */
  datatype Gene = Gene(minMelanin: real, skinColorBase: Option<Color>)

  /**
   * One option of a ColorGenerator_Options: a fixed colour when
   * `only.a >= 0`, otherwise the range from `min` to `max`.
   */
  datatype ColorOption = ColorOption(only: Color, min: Color, max: Color)

  /** The kinds of colour generator the palette builder distinguishes. */
  datatype ColorGenerator =
    | CustomAlienChannel
    | SkinColorMelanin(naturalMelanin: bool, minMelanin: real, maxMelanin: real)
    | Options(options: seq<ColorOption>)
    | Single(color: Color)
    | White
      /** any other generator class, or a missing generator */
    | OtherGenerator

  /** One category entry of a colour channel: a generator per slot. */
  datatype ColorChannelGeneratorCategory =
    ColorChannelGeneratorCategory(first: ColorGenerator, second: ColorGenerator)

  datatype ColorChannelGenerator =
    ColorChannelGenerator(name: string, entries: seq<ColorChannelGeneratorCategory>)

  /** The generator of one category entry for the requested slot. */
  function SlotGenerator(entry: ColorChannelGeneratorCategory, first: bool): ColorGenerator
  {
    if first then entry.first else entry.second
  }

  /**
   * A body addon definition. It is a class because the palette cache is
   * keyed by the addon object itself, not by its contents.
   */
  class BodyAddon {
    const colorChannel: string
    const linkVariantIndexWithPrevious: bool

    constructor (colorChannel: string, linkVariantIndexWithPrevious: bool)
      ensures this.colorChannel == colorChannel
      ensures this.linkVariantIndexWithPrevious == linkVariantIndexWithPrevious
    {
      this.colorChannel := colorChannel;
      this.linkVariantIndexWithPrevious := linkVariantIndexWithPrevious;
    }
  }

  /**
   * The floating-point colour arithmetic of Unity and RimWorld, left
   * uninterpreted: Mathf.Lerp, Mathf.InverseLerp, Color.Lerp, the
   * red/green/blue/alpha grid a colour range is sampled into, the
   * saturation-plus-value key of Color.RGBToHSV, and the generator's
   * NewRandomizedColor.
   */
  datatype ColorArithmetic = ColorArithmetic(
    lerp: (real, real, real) -> real,
    inverseLerp: (real, real, real) -> real,
    colorLerp: (Color, Color, real) -> Color,
    rangeGrid: (Color, Color) -> seq<Color>,
    saturationPlusValue: Color -> real,
    newRandomizedColor: ColorGenerator -> Color)
}
