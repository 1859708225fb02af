/**
 * The data model of a quotation request (Types/quotation.ts) and of the
 * reference data the formula engine reads (lib/quotationformula.ts:3-18).
 * JavaScript numbers are modelled as exact `real`s.
 */
module QuotationTypes {
  import opened Wrappers

  /** The two paint categories, `"oil" | "water"`. */
  datatype PaintType = Oil | Water

  /** One colour of a coat with its percentage share; `name` is optional. */
  datatype ColorCodeInput = ColorCodeInput(code: string, name: Option<string>, percentage: real)

  /** One paint category of the request; `doubleArea` is an optional flag. */
  datatype PaintSectionInput = PaintSectionInput(
    area: real,
    undercoatColors: seq<ColorCodeInput>,
    topcoatColors: seq<ColorCodeInput>,
    doubleArea: Option<bool>)

  datatype ArtworkColor = ArtworkColor(colorCode: string, colorName: string, litres: real)

  /**
   * An artwork item. `litres` is not declared on the source's ArtworkInput
   * type, but the artwork form sets it and the formula engine reads it, so
   * it is a field here.
   */
  datatype ArtworkInput = ArtworkInput(id: string, name: string, colors: seq<ArtworkColor>, litres: real)

  datatype QuotationInput = QuotationInput(
    quotationName: string,
    totalArea: real,
    oilPaint: PaintSectionInput,
    waterPaint: PaintSectionInput,
    artworks: seq<ArtworkInput>)

  /** A coverage record: `area` is the square metres one litre covers. */
  datatype SizeCoverage = SizeCoverage(id: string, paintType: PaintType, area: real)

  /** A container size of the packaging catalogue, in litres. */
  datatype PackagingOption = PackagingOption(id: string, litres: real)

  /** A catalogue entry naming an artwork and its colour code. */
  datatype ArtworkOption = ArtworkOption(id: string, name: string, colorCode: string)
}
