/**
 * utility_bills/parsers/water_parser.py: the extractor for water bills. Each field comes from
 * one Arabic-labelled pattern searched in the digit-normalised text; there is no English
 * fallback, no overwriting, and the billing period is never read.
 */
module WaterParser {
  import opened Wrappers
  import opened Text
  import opened Normalizers
  import opened Patterns
  import opened Dates

  /** `WaterParsed`: every field optional; the period fields exist but stay empty. */
  datatype WaterParsed = WaterParsed(
    meterNumber: Option<string>,
    periodStart: Option<Date>,
    periodEnd: Option<Date>,
    previousReading: Option<int>,
    currentReading: Option<int>,
    billedM3: Option<int>)

  /** Meter number: "meter" and "number" in Arabic, whitespace allowed between them, then digits. */
  const WaterMeter: Pattern := Pattern([[Lit("رقم"), Spaces(0), Lit("العداد"), Spaces(0), Group(Digits)]], false)

  /** Previous reading, the two Arabic words separated by optional whitespace. */
  const WaterPrevious: Pattern := Pattern([[Lit("القراءة"), Spaces(0), Lit("السابقة"), Spaces(0), Group(Digits)]], false)

  /** Current reading, likewise. */
  const WaterCurrent: Pattern := Pattern([[Lit("القراءة"), Spaces(0), Lit("الحالية"), Spaces(0), Group(Digits)]], false)

  /** Billed quantity: an unsigned digit run, unlike the electricity bill's signed one. */
  const WaterBilled: Pattern := Pattern([[Lit("الكمية"), Spaces(0), Lit("المفوترة"), Spaces(0), Group(Digits)]], false)

  predicate IsNumberPattern(p: Pattern) {
    WellFormed(p) && GroupShapes(p.alts[0]) == [Digits]
  }

  /** Only unfolds the pattern constants, so that contracts can name their groups. */
  lemma WaterPatternShapes()
    ensures IsNumberPattern(WaterMeter) && IsNumberPattern(WaterPrevious)
    ensures IsNumberPattern(WaterCurrent) && IsNumberPattern(WaterBilled)
  {
  }

  /**
   * `parse_water_text`: normalise the digits, then take each field from its own pattern; the
   * period is always `None`.
   */
  function ParseWaterText(rawText: Option<string>): (r: WaterParsed)
    ensures IsNumberPattern(WaterMeter) && IsNumberPattern(WaterPrevious)
    ensures IsNumberPattern(WaterCurrent) && IsNumberPattern(WaterBilled)
    ensures r.periodStart.None? && r.periodEnd.None?
    ensures r.meterNumber == Capture(NormalizeDigits(rawText), WaterMeter, 0)
    ensures r.previousReading == CaptureNat(NormalizeDigits(rawText), WaterPrevious, 0)
    ensures r.currentReading == CaptureNat(NormalizeDigits(rawText), WaterCurrent, 0)
    ensures r.billedM3 == CaptureNat(NormalizeDigits(rawText), WaterBilled, 0)
    ensures r.meterNumber.Some? ==> |r.meterNumber.value| > 0 && AllDigits(r.meterNumber.value)
    ensures r.meterNumber.None? <==> !Matches(NormalizeDigits(rawText), WaterMeter)
    ensures r.previousReading.None? <==> !Matches(NormalizeDigits(rawText), WaterPrevious)
    ensures r.currentReading.None? <==> !Matches(NormalizeDigits(rawText), WaterCurrent)
    ensures r.billedM3.None? <==> !Matches(NormalizeDigits(rawText), WaterBilled)
    ensures r.previousReading.Some? ==> r.previousReading.value >= 0
    ensures r.currentReading.Some? ==> r.currentReading.value >= 0
    ensures r.billedM3.Some? ==> r.billedM3.value >= 0
  {
    var t := NormalizeDigits(rawText);
    WaterPatternShapes();
    WaterParsed(
      Capture(t, WaterMeter, 0),
      None,
      None,
      CaptureNat(t, WaterPrevious, 0),
      CaptureNat(t, WaterCurrent, 0),
      CaptureNat(t, WaterBilled, 0))
  }

  /**
   * Matching happens after digit normalisation, so text written with Arabic-Indic digits
   * extracts exactly what the same text with ASCII digits does.
   */
  lemma DigitScriptIrrelevant(rawText: Option<string>)
    ensures ParseWaterText(Some(NormalizeDigits(rawText))) == ParseWaterText(rawText)
  {
    NormalizeDigitsIdempotent(rawText);
  }
}
