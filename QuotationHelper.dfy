/**
 * The legacy summary of lib/quotationhelper.ts: the oil area doubled when
 * `doubleArea` is set, and a summary that passes the input's areas through.
 */
module QuotationHelper {
  import opened Wrappers
  import opened QuotationTypes

  /**
   * `calculateOilPaintArea`: twice the oil area when `doubleArea` is true,
   * the area itself when it is false or not given.
   */
  function CalculateOilPaintArea(input: QuotationInput): (area: real)
    ensures input.oilPaint.doubleArea == Some(true) ==> area == 2.0 * input.oilPaint.area
    ensures input.oilPaint.doubleArea != Some(true) ==> area == input.oilPaint.area
  {
    if input.oilPaint.doubleArea.GetOr(false) then input.oilPaint.area * 2.0 else input.oilPaint.area
  }

  /** A non-negative oil area is never reduced. */
  lemma OilAreaAtLeastInput(input: QuotationInput)
    requires input.oilPaint.area >= 0.0
    ensures CalculateOilPaintArea(input) >= input.oilPaint.area
  {
  }

  /** The areas of the legacy summary. */
  datatype LegacySummary = LegacySummary(totalArea: real, oilPaintArea: real, waterPaintArea: real)

  /**
   * `getQuotationSummary` (legacy): the total area as given, the oil area as
   * `calculateOilPaintArea` computes it, and the water area as given.
   */
  function GetQuotationSummary(input: QuotationInput): (s: LegacySummary)
    ensures s.totalArea == input.totalArea
    ensures s.oilPaintArea == CalculateOilPaintArea(input)
    ensures s.waterPaintArea == input.waterPaint.area
  {
    LegacySummary(input.totalArea, CalculateOilPaintArea(input), input.waterPaint.area)
  }

  /** The water area is never doubled, whatever the water section's flag says. */
  lemma WaterNeverDoubled(input: QuotationInput, flag: Option<bool>)
    ensures GetQuotationSummary(input.(waterPaint := input.waterPaint.(doubleArea := flag))).waterPaintArea
      == input.waterPaint.area
  {
  }
}
