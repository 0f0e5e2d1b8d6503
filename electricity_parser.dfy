/**
 * utility_bills/parsers/electricity_parser.py: the extractor that turns the OCR text of an
 * electricity bill into an `ElectricityParsed` record of independently optional fields.
 */
module ElectricityParser {
  import opened Wrappers
  import opened Text
  import opened Normalizers
  import opened Patterns
  import opened Dates

  // ---- `_parse_date` ----

  /** Four digits, a slash, two digits, a slash, two digits; each number a group. */
  const DatePattern: Pattern :=
    Pattern([[Group(FixedDigits(4)), Lit("/"), Group(FixedDigits(2)), Lit("/"), Group(FixedDigits(2))]], false)

  /**
   * `_parse_date`: `None` when no date token occurs in `s`; otherwise the date its numbers
   * name, or the error `date` raises when they name no calendar day.
   */
  function ParseDate(s: string): (r: Result<Option<Date>, DateError>)
    ensures r == Ok(None) <==> !Matches(s, DatePattern)
    ensures r.Ok? && r.value.Some? ==> ValidDate(r.value.value.year, r.value.value.month, r.value.value.day)
    ensures r.Err? ==> !ValidDate(r.error.year, r.error.month, r.error.day)
  {
    DatePatternShapes();
    SearchDate(s, DatePattern)
  }

  predicate IsDatePattern(p: Pattern) {
    WellFormed(p) && GroupShapes(p.alts[0]) == [FixedDigits(4), FixedDigits(2), FixedDigits(2)]
  }

  /** Search for `p`, then `y, mo, d = map(int, m.groups())` and `date(y, mo, d)`. */
  function SearchDate(s: string, p: Pattern): (r: Result<Option<Date>, DateError>)
    requires IsDatePattern(p)
    ensures r == Ok(None) <==> !Matches(s, p)
  {
    var m := SearchGroups(s, p);
    if m.None? then Ok(None)
    else CalendarDate(DigitsValue(m.value[0]), DigitsValue(m.value[1]), DigitsValue(m.value[2]))
  }

  /** Only unfolds the date pattern, so that contracts can name its groups. */
  lemma DatePatternShapes()
    ensures WellFormed(DatePattern) && GroupShapes(DatePattern.alts[0]) == [FixedDigits(4), FixedDigits(2), FixedDigits(2)]
  {
  }

  /** The boundaries of the one way `DatePattern` matches a date token. */
  lemma DateTokenSplits(w: string)
    requires ShapeText(w, DateToken)
    ensures Splits(w, DatePattern.alts[0], false, [0, 4, 5, 7, 8, 10])
  {
    var alt := DatePattern.alts[0];
    var b: seq<nat> := [0, 4, 5, 7, 8, 10];
    assert w[0..4] == w[..4] && w[5..7] == w[5..7] && w[8..10] == w[8..];
    assert Spans(w, alt[0], false, 0, 4);
    assert Spans(w, alt[1], false, 4, 5);
    assert Spans(w, alt[2], false, 5, 7);
    assert Spans(w, alt[3], false, 7, 8);
    assert Spans(w, alt[4], false, 8, 10);
  }

  /** On a date token the search finds the token itself, cut at the slashes. */
  lemma DateTokenFound(w: string)
    requires ShapeText(w, DateToken)
    ensures Search(w, DatePattern) == Some(Found(0, 0, [0, 4, 5, 7, 8, 10]))
  {
    var alt := DatePattern.alts[0];
    DateTokenSplits(w);
    assert MatchesAt(w, DatePattern, 0, 0);
    var f := Search(w, DatePattern).value;
    assert f.start == 0 && f.alt == 0;
    assert forall n :: 0 <= n < |alt| ==> FixedWidth(alt[n]);
    FixedSplitsUnique(w, alt, false, f.bounds, [0, 4, 5, 7, 8, 10]);
  }

  /**
   * On the text a date group captured, `_parse_date` always finds the token at the start,
   * so it returns the date its three numbers name or raises; it never returns `None`.
   */
  lemma ParseDateOfToken(w: string)
    requires ShapeText(w, DateToken)
    ensures ParseDate(w) == CalendarDate(DigitsValue(w[..4]), DigitsValue(w[5..7]), DigitsValue(w[8..]))
  {
    DateTokenFound(w);
    DateTokenGroups(w);
  }

  lemma DateTokenGroups(w: string)
    requires ShapeText(w, DateToken)
    ensures Splits(w, DatePattern.alts[0], false, [0, 4, 5, 7, 8, 10])
    ensures Groups(w, DatePattern.alts[0], false, [0, 4, 5, 7, 8, 10]) == [w[..4], w[5..7], w[8..]]
  {
    DateTokenSplits(w);
    assert Groups(w, DatePattern.alts[0], false, [0, 4, 5, 7, 8, 10]) == [w[0..4], w[5..7], w[8..10]];
    assert w[0..4] == w[..4] && w[8..10] == w[8..];
  }

  /** An impossible calendar date such as 2024/13/40 raises instead of giving `None`. */
  lemma ImpossibleDateRaises()
    ensures ParseDate("2024" + "/" + "13" + "/" + "40") == Err(InvalidDate(2024, 13, 40))
  {
    var w := "2024" + "/" + "13" + "/" + "40";
    assert |w| == 10 && w[5] == '1' && w[6] == '3' && w[8] == '4' && w[9] == '0';
    assert w[..4] == "2024";
    assert w[5..7] == "13";
    assert w[8..] == "40";
    assert DigitsValue("2024") == 2024 by {
      assert "2024"[..3] == "202" && "202"[..2] == "20" && "20"[..1] == "2";
    }
    assert DigitsValue("13") == 13 by {
      assert "13"[..1] == "1";
    }
    assert DigitsValue("40") == 40 by {
      assert "40"[..1] == "4";
    }
    ParseDateOfToken(w);
  }

  // ---- the extracted record ----

  /** `ElectricityParsed`: every field optional; money as exact decimals. */
  datatype ElectricityParsed = ElectricityParsed(
    meterNumber: Option<string>,
    periodStart: Option<Date>,
    periodEnd: Option<Date>,
    readingDate: Option<Date>,
    importPrevious: Option<int>,
    importCurrent: Option<int>,
    exportPrevious: Option<int>,
    exportCurrent: Option<int>,
    billedKwh: Option<int>,
    totalBillValue: Option<Decimal>,
    consumptionValue: Option<Decimal>,
    networkServicesFees: Option<Decimal>,
    fixedSubsidyAmount: Option<Decimal>)

  // ---- the patterns ----

  /** Meter number after the Arabic label. */
  const MeterArabic: Pattern := Pattern([[Lit("رقم العداد"), Spaces(0), Group(Digits)]], false)

  /** Meter number after the English label. */
  const MeterEnglish: Pattern := Pattern([[Lit("Meter"), Spaces(0), Lit("No"), Spaces(0), Group(Digits)]], true)

  /** Billing period in Arabic: "from" date "to" date. */
  const PeriodArabic: Pattern := Pattern([[Lit("من"), Spaces(0), Group(DateToken), Spaces(0), Lit("الى"), Spaces(0), Group(DateToken)]], false)

  /** Billing period in English; anything but a newline may stand between the two dates. */
  const PeriodEnglish: Pattern := Pattern([[Lit("from"), Spaces(0), Group(DateToken), DotStar, Lit("to"), Spaces(0), Group(DateToken)]], true)

  /** Reading date after the Arabic label. */
  const ReadingDateArabic: Pattern := Pattern([[Lit("تاريخ القراءة"), Spaces(0), Group(DateToken)]], false)

  /** Reading date after the English label. */
  const ReadingDateEnglish: Pattern := Pattern([[Lit("Reading"), Spaces(0), Lit("date"), Spaces(0), Group(DateToken)]], true)

  /** Previous reading on the summary layout. */
  const SummaryPrevious: Pattern := Pattern([[Lit("القراءة السابقة"), Spaces(0), Group(Digits)]], false)

  /** Current reading on the summary layout. */
  const SummaryCurrent: Pattern := Pattern([[Lit("القراءة الحالية"), Spaces(0), Group(Digits)]], false)

  /** Energy drawn from the grid, detailed table row: current, previous, difference. */
  const ImportRow: Pattern := Pattern([[Lit("المستجرة"), Spaces(1), Lit("من"), Spaces(1), Lit("الشبكة"), Spaces(1), Group(Digits), Spaces(1), Group(Digits), Spaces(1), Group(Digits)]], false)

  /** Energy delivered to the grid, detailed table row: current, previous, difference. */
  const ExportRow: Pattern := Pattern([[Lit("المصدرة"), Spaces(1), Lit("إلى"), Spaces(1), Lit("الشبكة"), Spaces(1), Group(Digits), Spaces(1), Group(Digits), Spaces(1), Group(Digits)]], false)

  /** Billed quantity after the Arabic label, possibly negative. */
  const BilledArabic: Pattern := Pattern([[Lit("الكمية المفوترة"), Spaces(0), Group(SignedDigits)]], false)

  /** Billed quantity after the English label, possibly negative. */
  const BilledEnglish: Pattern := Pattern([[Lit("Net"), Spaces(0), Lit("consumption"), Spaces(0), Lit("quantity"), Spaces(0), Group(SignedDigits)]], true)

  /** Total bill value written as a decimal. */
  const TotalDecimal: Pattern := Pattern([[Lit("Total"), Spaces(0), Lit("bill"), Spaces(0), Lit("value"), Spaces(0), Group(AmountChars(false))]], true)

  /** Total bill value written as dinars and three-digit fils. */
  const TotalSplit: Pattern := Pattern([[Lit("قيمة"), Spaces(0), Lit("الفاتورة"), Spaces(0), Group(SignedDigits), Spaces(1), Group(FixedDigits(3))]], false)

  /** Consumption value written as a decimal (label spelled without the final taa marbuta). */
  const ConsumptionDecimal: Pattern := Pattern([[Lit("قيم"), Spaces(0), Lit("الاستهلاك"), Spaces(0), Group(AmountChars(false))]], false)

  /** Consumption value written as dinars and three-digit fils. */
  const ConsumptionSplit: Pattern := Pattern([[Lit("قيمة"), Spaces(0), Lit("الاستهلاك"), Spaces(0), Group(SignedDigits), Spaces(1), Group(FixedDigits(3))]], false)

  /** Fixed subsidy amount, English or Arabic label. */
  const FixedSubsidy: Pattern := Pattern([[Lit("Fixed"), Spaces(0), Lit("subsidy"), Spaces(0), Lit("amount"), Spaces(0), Group(AmountChars(true))], [Lit("قيمة"), Spaces(0), Lit("الخصم"), Spaces(0), Lit("الثابت"), Spaces(0), Group(AmountChars(true))]], true)

  /** Network services fees, English or Arabic label. */
  const NetworkFee: Pattern := Pattern([[Lit("Network"), Spaces(0), Lit("services"), Spaces(0), Lit("fees"), Spaces(0), Group(AmountChars(true))], [Lit("بدل"), Spaces(0), Lit("خدمات"), Spaces(0), Lit("الشبكة"), Spaces(0), Group(AmountChars(true))]], true)

  // ---- the shapes of their groups ----
  // Each lemma below has an empty body on purpose: it only makes the verifier unfold one
  // pattern constant, so that the contracts using that pattern can name its groups.

  lemma MeterArabicShapes()
    ensures WellFormed(MeterArabic) && GroupShapes(MeterArabic.alts[0]) == [Digits]
  {
  }

  lemma MeterEnglishShapes()
    ensures WellFormed(MeterEnglish) && GroupShapes(MeterEnglish.alts[0]) == [Digits]
  {
  }

  lemma PeriodArabicShapes()
    ensures WellFormed(PeriodArabic) && GroupShapes(PeriodArabic.alts[0]) == [DateToken, DateToken]
  {
  }

  lemma PeriodEnglishShapes()
    ensures WellFormed(PeriodEnglish) && GroupShapes(PeriodEnglish.alts[0]) == [DateToken, DateToken]
  {
  }

  lemma ReadingDateArabicShapes()
    ensures WellFormed(ReadingDateArabic) && GroupShapes(ReadingDateArabic.alts[0]) == [DateToken]
  {
  }

  lemma ReadingDateEnglishShapes()
    ensures WellFormed(ReadingDateEnglish) && GroupShapes(ReadingDateEnglish.alts[0]) == [DateToken]
  {
  }

  lemma SummaryPreviousShapes()
    ensures WellFormed(SummaryPrevious) && GroupShapes(SummaryPrevious.alts[0]) == [Digits]
  {
  }

  lemma SummaryCurrentShapes()
    ensures WellFormed(SummaryCurrent) && GroupShapes(SummaryCurrent.alts[0]) == [Digits]
  {
  }

  lemma ImportRowShapes()
    ensures WellFormed(ImportRow) && GroupShapes(ImportRow.alts[0]) == [Digits, Digits, Digits]
  {
  }

  lemma ExportRowShapes()
    ensures WellFormed(ExportRow) && GroupShapes(ExportRow.alts[0]) == [Digits, Digits, Digits]
  {
  }

  lemma BilledArabicShapes()
    ensures WellFormed(BilledArabic) && GroupShapes(BilledArabic.alts[0]) == [SignedDigits]
  {
  }

  lemma BilledEnglishShapes()
    ensures WellFormed(BilledEnglish) && GroupShapes(BilledEnglish.alts[0]) == [SignedDigits]
  {
  }

  lemma TotalDecimalShapes()
    ensures WellFormed(TotalDecimal) && GroupShapes(TotalDecimal.alts[0]) == [AmountChars(false)]
  {
  }

  lemma TotalSplitShapes()
    ensures WellFormed(TotalSplit) && GroupShapes(TotalSplit.alts[0]) == [SignedDigits, FixedDigits(3)]
  {
  }

  lemma ConsumptionDecimalShapes()
    ensures WellFormed(ConsumptionDecimal) && GroupShapes(ConsumptionDecimal.alts[0]) == [AmountChars(false)]
  {
  }

  lemma ConsumptionSplitShapes()
    ensures WellFormed(ConsumptionSplit) && GroupShapes(ConsumptionSplit.alts[0]) == [SignedDigits, FixedDigits(3)]
  {
  }

  lemma FixedSubsidyShapes()
    ensures WellFormed(FixedSubsidy) && GroupShapes(FixedSubsidy.alts[0]) == [AmountChars(true)]
  {
  }

  lemma NetworkFeeShapes()
    ensures WellFormed(NetworkFee) && GroupShapes(NetworkFee.alts[0]) == [AmountChars(true)]
  {
  }

  // ---- what one pattern yields ----

  /** The year, month and day a `dddd/dd/dd` token spells, whether or not they form a date. */
  function TokenDate(w: string): Date
    requires ShapeText(w, DateToken)
  {
    Date(DigitsValue(w[..4]), DigitsValue(w[5..7]), DigitsValue(w[8..]))
  }

  /** The error `date` raises on the numbers of `d`. */
  function ErrorOf(d: Date): DateError {
    InvalidDate(d.year, d.month, d.day)
  }

  /**
   * `_parse_date` of an optional capture: no capture, no date; a captured token gives the date
   * it spells when that is a calendar day, and raises on it otherwise.
   */
  function DateOf(w: Option<string>): (r: Result<Option<Date>, DateError>)
    ensures r.Err? ==> !ValidDate(r.error.year, r.error.month, r.error.day)
    ensures r.Ok? && r.value.Some? ==> ValidDay(r.value.value)
    ensures w.None? ==> r == Ok(None)
    ensures w.Some? && ShapeText(w.value, DateToken) ==>
      if ValidDay(TokenDate(w.value)) then r == Ok(Some(TokenDate(w.value))) else r == Err(ErrorOf(TokenDate(w.value)))
  {
    if w.None? then Ok(None)
    else if ShapeText(w.value, DateToken) then
      ParseDateOfToken(w.value);
      ParseDate(w.value)
    else ParseDate(w.value)
  }

  /**
   * `Decimal(din) + Decimal(fils) / Decimal(1000)`. The sign belongs to the dinars alone. The
   * exact quotient drops the fils' trailing zeros down to its ideal exponent 0 ("500" is 0.5,
   * "000" is 0), and the sum keeps the quotient's exponent: "12" "500" is 12.5, "12" "000" is 12.
   */
  function SplitAmount(din: string, fils: string): (r: Decimal)
    requires SignedDigitText(din) && |fils| == 3 && AllDigits(fils)
    ensures r.scale <= 3
    ensures Thousandths(r) == SignedValue(din) * 1000 + DigitsValue(fils)
    ensures r.scale > 0 ==> r.coefficient % 10 != 0
    ensures r.scale == 0 <==> DigitsValue(fils) == 0
  {
    var v := SignedValue(din);
    var a, b, c := DigitValue(fils[0]), DigitValue(fils[1]), DigitValue(fils[2]);
    ThreeDigits(fils);
    Pow10Small();
    if c != 0 then
      LastDigit((v * 10 + a) * 10 + b, c);
      Decimal(((v * 10 + a) * 10 + b) * 10 + c, 3)
    else if b != 0 then
      LastDigit(v * 10 + a, b);
      Decimal((v * 10 + a) * 10 + b, 2)
    else if a != 0 then
      LastDigit(v, a);
      Decimal(v * 10 + a, 1)
    else
      Decimal(v, 0)
  }

  /** An amount of at most three decimals counted in thousandths (fils). */
  function Thousandths(x: Decimal): int
    requires x.scale <= 3
  {
    x.coefficient * Pow10(3 - x.scale)
  }

  /** Amounts of at most three decimals have the same value exactly when they are the same number of fils. */
  lemma SameValueInThousandths(x: Decimal, y: Decimal)
    requires x.scale <= 3 && y.scale <= 3
    ensures SameValue(x, y) <==> Thousandths(x) == Thousandths(y)
  {
    Pow10Small();
    assert x.scale == 0 || x.scale == 1 || x.scale == 2 || x.scale == 3;
    assert y.scale == 0 || y.scale == 1 || y.scale == 2 || y.scale == 3;
  }

  lemma Pow10Small()
    ensures Pow10(0) == 1 && Pow10(1) == 10 && Pow10(2) == 100 && Pow10(3) == 1000
  {
  }

  lemma ThreeDigits(fils: string)
    requires |fils| == 3 && AllDigits(fils)
    ensures DigitsValue(fils) == (DigitValue(fils[0]) * 10 + DigitValue(fils[1])) * 10 + DigitValue(fils[2])
  {
    var two := fils[..2];
    assert two[..1] == fils[..1] && two[1] == fils[1] && fils[..1][..0] == [];
    assert DigitsValue(fils[..1]) == DigitValue(fils[0]);
    assert DigitsValue(two) == DigitValue(fils[0]) * 10 + DigitValue(fils[1]);
  }

  lemma LastDigit(x: int, d: int)
    requires 0 < d < 10
    ensures (x * 10 + d) % 10 == d
  {
  }

  predicate IsDecimalPattern(p: Pattern) {
    WellFormed(p) && GroupShapes(p.alts[0]) == [AmountChars(false)]
  }

  predicate IsSplitPattern(p: Pattern) {
    WellFormed(p) && GroupShapes(p.alts[0]) == [SignedDigits, FixedDigits(3)]
  }

  predicate IsTableRowPattern(p: Pattern) {
    WellFormed(p) && GroupShapes(p.alts[0]) == [Digits, Digits, Digits]
  }

  predicate IsSignedAmountPattern(p: Pattern) {
    WellFormed(p) && GroupShapes(p.alts[0]) == [AmountChars(true)]
  }

  /** The dinars-and-fils amount of the first match of a split pattern. */
  function SplitCapture(t: string, split: Pattern): (r: Option<Decimal>)
    requires IsSplitPattern(split)
    ensures r.None? <==> !Matches(t, split)
    ensures r.Some? ==> r.value == SplitAmount(Capture(t, split, 0).value, Capture(t, split, 1).value)
  {
    match SearchGroups(t, split)
    case None => None
    case Some(g) => Some(SplitAmount(g[0], g[1]))
  }

  /**
   * A money field with two spellings: when the decimal pattern matches, what
   * `parse_decimal_maybe` makes of its capture (possibly `None`); otherwise the split form.
   */
  function MoneyField(t: string, decimal: Pattern, split: Pattern): (r: Option<Decimal>)
    requires IsDecimalPattern(decimal) && IsSplitPattern(split)
    ensures Matches(t, decimal) ==> r == ParseDecimalMaybe(Capture(t, decimal, 0))
    ensures !Matches(t, decimal) ==> r == SplitCapture(t, split)
    ensures !Matches(t, decimal) && !Matches(t, split) ==> r.None?
  {
    if Capture(t, decimal, 0).Some? then ParseDecimalMaybe(Capture(t, decimal, 0))
    else SplitCapture(t, split)
  }

  // ---- each field of the record ----

  /** The meter number: the Arabic label's digits if that pattern matches, else the English label's. */
  function MeterNumber(t: string): (r: Option<string>)
    ensures r.Some? ==> |r.value| > 0 && AllDigits(r.value)
    ensures r.None? <==> !Matches(t, MeterArabic) && !Matches(t, MeterEnglish)
    ensures Matches(t, MeterArabic) ==> r == Capture(t, MeterArabic, 0)
    ensures !Matches(t, MeterArabic) ==> r == Capture(t, MeterEnglish, 0)
  {
    MeterArabicShapes();
    MeterEnglishShapes();
    Capture(t, MeterArabic, 0).Or(Capture(t, MeterEnglish, 0))
  }

  predicate IsPeriodPattern(p: Pattern) {
    WellFormed(p) && GroupShapes(p.alts[0]) == [DateToken, DateToken]
  }

  /** Date text `n` (0 for the start, 1 for the end) of the Arabic period if it matches, else of the English one. */
  function PeriodText(t: string, n: nat): (r: Option<string>)
    requires n < 2
    ensures IsPeriodPattern(PeriodArabic) && IsPeriodPattern(PeriodEnglish)
    ensures r.Some? ==> ShapeText(r.value, DateToken)
    ensures r.None? <==> !Matches(t, PeriodArabic) && !Matches(t, PeriodEnglish)
    ensures Matches(t, PeriodArabic) ==> r == Capture(t, PeriodArabic, n)
    ensures !Matches(t, PeriodArabic) ==> r == Capture(t, PeriodEnglish, n)
  {
    PeriodArabicShapes();
    PeriodEnglishShapes();
    PeriodCapture(t, PeriodArabic, n).Or(PeriodCapture(t, PeriodEnglish, n))
  }

  function PeriodCapture(t: string, p: Pattern, n: nat): (r: Option<string>)
    requires IsPeriodPattern(p) && n < 2
    ensures r.Some? ==> ShapeText(r.value, DateToken)
    ensures r.None? <==> !Matches(t, p)
  {
    Capture(t, p, n)
  }

  /** Date text after the Arabic reading-date label if that pattern matches, else after the English one. */
  function ReadingDateText(t: string): (r: Option<string>)
    ensures r.Some? ==> ShapeText(r.value, DateToken)
    ensures r.None? <==> !Matches(t, ReadingDateArabic) && !Matches(t, ReadingDateEnglish)
    ensures Matches(t, ReadingDateArabic) ==> r == Capture(t, ReadingDateArabic, 0)
    ensures !Matches(t, ReadingDateArabic) ==> r == Capture(t, ReadingDateEnglish, 0)
  {
    ReadingDateArabicShapes();
    ReadingDateEnglishShapes();
    Capture(t, ReadingDateArabic, 0).Or(Capture(t, ReadingDateEnglish, 0))
  }

  predicate IsReadingPattern(p: Pattern) {
    WellFormed(p) && GroupShapes(p.alts[0]) == [Digits]
  }

  /** Number `n` of the table row when the row matches, else the summary reading: the row overwrites. */
  function RowOverSummary(t: string, row: Pattern, n: nat, summary: Pattern): (r: Option<int>)
    requires IsTableRowPattern(row) && n < 3 && IsReadingPattern(summary)
    ensures r.Some? ==> r.value >= 0
    ensures r.None? <==> !Matches(t, row) && !Matches(t, summary)
    ensures Matches(t, row) ==> r == CaptureNat(t, row, n)
    ensures !Matches(t, row) ==> r == CaptureNat(t, summary, 0)
  {
    CaptureNat(t, row, n).Or(CaptureNat(t, summary, 0))
  }

  /** Previous import reading: the import row's second number when the row matches, else the summary's previous reading. */
  function ImportPrevious(t: string): (r: Option<int>)
    ensures r.Some? ==> r.value >= 0
    ensures IsTableRowPattern(ImportRow) && IsReadingPattern(SummaryPrevious)
    ensures r.None? <==> !Matches(t, ImportRow) && !Matches(t, SummaryPrevious)
    ensures Matches(t, ImportRow) ==> r == CaptureNat(t, ImportRow, 1)
    ensures !Matches(t, ImportRow) ==> r == CaptureNat(t, SummaryPrevious, 0)
  {
    ImportRowShapes();
    SummaryPreviousShapes();
    RowOverSummary(t, ImportRow, 1, SummaryPrevious)
  }

  /** Current import reading: the import row's first number when the row matches, else the summary's current reading. */
  function ImportCurrent(t: string): (r: Option<int>)
    ensures r.Some? ==> r.value >= 0
    ensures IsTableRowPattern(ImportRow) && IsReadingPattern(SummaryCurrent)
    ensures r.None? <==> !Matches(t, ImportRow) && !Matches(t, SummaryCurrent)
    ensures Matches(t, ImportRow) ==> r == CaptureNat(t, ImportRow, 0)
    ensures !Matches(t, ImportRow) ==> r == CaptureNat(t, SummaryCurrent, 0)
  {
    ImportRowShapes();
    SummaryCurrentShapes();
    RowOverSummary(t, ImportRow, 0, SummaryCurrent)
  }

  /** Previous export reading: the export row's second number, and nothing else. */
  function ExportPrevious(t: string): (r: Option<int>)
    ensures r.Some? ==> r.value >= 0
    ensures IsTableRowPattern(ExportRow)
    ensures r.None? <==> !Matches(t, ExportRow)
    ensures r == CaptureNat(t, ExportRow, 1)
  {
    ExportRowShapes();
    CaptureNat(t, ExportRow, 1)
  }

  /** Current export reading: the export row's first number, and nothing else. */
  function ExportCurrent(t: string): (r: Option<int>)
    ensures r.Some? ==> r.value >= 0
    ensures IsTableRowPattern(ExportRow)
    ensures r.None? <==> !Matches(t, ExportRow)
    ensures r == CaptureNat(t, ExportRow, 0)
  {
    ExportRowShapes();
    CaptureNat(t, ExportRow, 0)
  }

  /** Billed kWh, possibly negative: the Arabic label if that pattern matches, else the English one. */
  function BilledKwh(t: string): (r: Option<int>)
    ensures r.None? <==> !Matches(t, BilledArabic) && !Matches(t, BilledEnglish)
    ensures Matches(t, BilledArabic) ==> r == CaptureInt(t, BilledArabic, 0)
    ensures !Matches(t, BilledArabic) ==> r == CaptureInt(t, BilledEnglish, 0)
  {
    BilledArabicShapes();
    BilledEnglishShapes();
    CaptureInt(t, BilledArabic, 0).Or(CaptureInt(t, BilledEnglish, 0))
  }

  /** The total bill value: decimal form first, then dinars and fils. */
  function TotalBillValue(t: string): (r: Option<Decimal>)
    ensures IsDecimalPattern(TotalDecimal) && IsSplitPattern(TotalSplit)
    ensures Matches(t, TotalDecimal) ==> r == ParseDecimalMaybe(Capture(t, TotalDecimal, 0))
    ensures !Matches(t, TotalDecimal) ==> r == SplitCapture(t, TotalSplit)
    ensures !Matches(t, TotalDecimal) && !Matches(t, TotalSplit) ==> r.None?
  {
    TotalDecimalShapes();
    TotalSplitShapes();
    MoneyField(t, TotalDecimal, TotalSplit)
  }

  /** The consumption value: decimal form first, then dinars and fils. */
  function ConsumptionValue(t: string): (r: Option<Decimal>)
    ensures IsDecimalPattern(ConsumptionDecimal) && IsSplitPattern(ConsumptionSplit)
    ensures Matches(t, ConsumptionDecimal) ==> r == ParseDecimalMaybe(Capture(t, ConsumptionDecimal, 0))
    ensures !Matches(t, ConsumptionDecimal) ==> r == SplitCapture(t, ConsumptionSplit)
    ensures !Matches(t, ConsumptionDecimal) && !Matches(t, ConsumptionSplit) ==> r.None?
  {
    ConsumptionDecimalShapes();
    ConsumptionSplitShapes();
    MoneyField(t, ConsumptionDecimal, ConsumptionSplit)
  }

  /** Network services fees after either label, as `parse_decimal_maybe` reads the capture. */
  function NetworkServicesFees(t: string): (r: Option<Decimal>)
    ensures !Matches(t, NetworkFee) ==> r.None?
  {
    NetworkFeeShapes();
    ParseDecimalMaybe(Capture(t, NetworkFee, 0))
  }

  /** The fixed subsidy after either label, as `parse_decimal_maybe` reads the capture. */
  function FixedSubsidyAmount(t: string): (r: Option<Decimal>)
    ensures !Matches(t, FixedSubsidy) ==> r.None?
  {
    FixedSubsidyShapes();
    ParseDecimalMaybe(Capture(t, FixedSubsidy, 0))
  }

  /**
   * The reading date: `None` when neither reading-date pattern matches, otherwise the date the
   * captured token spells, or the error `date` raises on it.
   */
  function ReadingDate(t: string): (r: Result<Option<Date>, DateError>)
    ensures r.Err? ==> !ValidDate(r.error.year, r.error.month, r.error.day)
    ensures r.Ok? && r.value.Some? ==> ValidDay(r.value.value)
    ensures ReadingDateText(t).None? ==> r == Ok(None)
    ensures ReadingDateText(t).Some? ==>
      var d := TokenDate(ReadingDateText(t).value);
      if ValidDay(d) then r == Ok(Some(d)) else r == Err(ErrorOf(d))
  {
    DateOf(ReadingDateText(t))
  }

  /** Period date `n` (0 the start, 1 the end), with the same meaning as the reading date. */
  function PeriodDate(t: string, n: nat): (r: Result<Option<Date>, DateError>)
    requires n < 2
    ensures r.Err? ==> !ValidDate(r.error.year, r.error.month, r.error.day)
    ensures r.Ok? && r.value.Some? ==> ValidDay(r.value.value)
    ensures PeriodText(t, n).None? ==> r == Ok(None)
    ensures PeriodText(t, n).Some? ==>
      var d := TokenDate(PeriodText(t, n).value);
      if ValidDay(d) then r == Ok(Some(d)) else r == Err(ErrorOf(d))
  {
    DateOf(PeriodText(t, n))
  }

  /** The billing period: both dates, or the error of the first impossible one (the start is parsed first). */
  datatype Period = Period(start: Option<Date>, end: Option<Date>)

  function PeriodDates(t: string): (r: Result<Period, DateError>)
    ensures r.Err? ==> !ValidDate(r.error.year, r.error.month, r.error.day)
    ensures r.Ok? && r.value.start.Some? ==> ValidDay(r.value.start.value)
    ensures r.Ok? && r.value.end.Some? ==> ValidDay(r.value.end.value)
    ensures r.Ok? <==> PeriodDate(t, 0).Ok? && PeriodDate(t, 1).Ok?
    ensures PeriodDate(t, 0).Err? ==> r == Err(PeriodDate(t, 0).error)
    ensures PeriodDate(t, 0).Ok? && PeriodDate(t, 1).Err? ==> r == Err(PeriodDate(t, 1).error)
    ensures r.Ok? ==> r.value == Period(PeriodDate(t, 0).value, PeriodDate(t, 1).value)
  {
    var ps := PeriodDate(t, 0);
    var pe := PeriodDate(t, 1);
    if ps.Err? then Err(ps.error)
    else if pe.Err? then Err(pe.error)
    else Ok(Period(ps.value, pe.value))
  }

  /**
   * What `parse_electricity_text` returns for normalised text `t`, field by field. Dates are
   * parsed in the order period start, period end, reading date, and the first impossible
   * one is raised.
   */
  function Expected(t: string): (r: Result<ElectricityParsed, DateError>)
    ensures r.Err? ==> !ValidDate(r.error.year, r.error.month, r.error.day)
    ensures r.Ok? && r.value.periodStart.Some? ==> ValidDay(r.value.periodStart.value)
    ensures r.Ok? && r.value.periodEnd.Some? ==> ValidDay(r.value.periodEnd.value)
    ensures r.Ok? && r.value.readingDate.Some? ==> ValidDay(r.value.readingDate.value)
    ensures r.Ok? <==> PeriodDates(t).Ok? && ReadingDate(t).Ok?
    ensures PeriodDates(t).Err? ==> r == Err(PeriodDates(t).error)
    ensures PeriodDates(t).Ok? && ReadingDate(t).Err? ==> r == Err(ReadingDate(t).error)
    ensures r.Ok? ==> r.value.periodStart == PeriodDates(t).value.start && r.value.periodEnd == PeriodDates(t).value.end
    ensures r.Ok? ==> r.value.readingDate == ReadingDate(t).value
  {
    var period := PeriodDates(t);
    var rd := ReadingDate(t);
    if period.Err? then Err(period.error)
    else if rd.Err? then Err(rd.error)
    else Ok(WithDates(t, period.value.start, period.value.end, rd.value))
  }

  /** The record for text `t` once its three dates are known. */
  function WithDates(t: string, start: Option<Date>, end: Option<Date>, readingDate: Option<Date>): ElectricityParsed {
    ElectricityParsed(
      MeterNumber(t), start, end, readingDate,
      ImportPrevious(t), ImportCurrent(t), ExportPrevious(t), ExportCurrent(t),
      BilledKwh(t), TotalBillValue(t), ConsumptionValue(t),
      NetworkServicesFees(t), FixedSubsidyAmount(t))
  }

  // ---- the extraction, section by section ----

  /** Meter number: the Arabic label, and only when it is absent the English one. */
  method FindMeter(t: string) returns (meter: Option<string>)
    ensures meter == MeterNumber(t)
  {
    MeterArabicShapes();
    MeterEnglishShapes();
    meter := None;
    var m := SearchGroups(t, MeterArabic);
    if m.Some? {
      meter := Some(m.value[0]);
    } else {
      m := SearchGroups(t, MeterEnglish);
      if m.Some? {
        meter := Some(m.value[0]);
      }
    }
  }

  /** Billing period: the Arabic pattern, else the English one; each date parsed as captured. */
  method FindPeriod(t: string) returns (r: Result<Period, DateError>)
    ensures r == PeriodDates(t)
  {
    PeriodArabicShapes();
    PeriodEnglishShapes();
    var ps: Option<Date> := None;
    var pe: Option<Date> := None;
    var m := SearchGroups(t, PeriodArabic);
    if !m.Some? {
      m := SearchGroups(t, PeriodEnglish);
    }
    assert m.Some? ==> Some(m.value[0]) == PeriodText(t, 0) && Some(m.value[1]) == PeriodText(t, 1);
    assert m.None? ==> PeriodText(t, 0).None? && PeriodText(t, 1).None?;
    if m.Some? {
      var d := ParseDate(m.value[0]);
      if d.Err? {
        return Err(d.error);
      }
      ps := d.value;
      d := ParseDate(m.value[1]);
      if d.Err? {
        return Err(d.error);
      }
      pe := d.value;
    }
    return Ok(Period(ps, pe));
  }

  /** Reading date: the Arabic label, else the English one. */
  method FindReadingDate(t: string) returns (r: Result<Option<Date>, DateError>)
    ensures r == DateOf(ReadingDateText(t))
  {
    ReadingDateArabicShapes();
    ReadingDateEnglishShapes();
    var m := SearchGroups(t, ReadingDateArabic);
    if !m.Some? {
      m := SearchGroups(t, ReadingDateEnglish);
    }
    assert m.Some? ==> Some(m.value[0]) == ReadingDateText(t);
    if m.Some? {
      r := ParseDate(m.value[0]);
    } else {
      r := Ok(None);
    }
  }

  /** The previous and current readings of the summary layout. */
  method FindSummaryReadings(t: string) returns (previous: Option<int>, current: Option<int>)
    ensures previous == CaptureNat(t, SummaryPrevious, 0) && current == CaptureNat(t, SummaryCurrent, 0)
  {
    SummaryPreviousShapes();
    SummaryCurrentShapes();
    previous, current := None, None;
    var m := SearchGroups(t, SummaryPrevious);
    if m.Some? {
      previous := Some(DigitsValue(m.value[0]));
    }
    m := SearchGroups(t, SummaryCurrent);
    if m.Some? {
      current := Some(DigitsValue(m.value[0]));
    }
  }

  /**
   * A row of the detailed energy table (current, previous, difference): when it matches, its
   * first two numbers overwrite the readings passed in; otherwise those are kept.
   */
  method ReadTableRow(t: string, row: Pattern, previous: Option<int>, current: Option<int>)
    returns (previous': Option<int>, current': Option<int>)
    requires IsTableRowPattern(row)
    ensures previous' == CaptureNat(t, row, 1).Or(previous)
    ensures current' == CaptureNat(t, row, 0).Or(current)
  {
    previous', current' := previous, current;
    var m := SearchGroups(t, row);
    if m.Some? {
      current' := Some(DigitsValue(m.value[0]));
      previous' := Some(DigitsValue(m.value[1]));
    }
  }

  /** Billed quantity: the Arabic label, else the English one. */
  method FindBilled(t: string) returns (billed: Option<int>)
    ensures billed == BilledKwh(t)
  {
    BilledArabicShapes();
    BilledEnglishShapes();
    billed := None;
    var m := SearchGroups(t, BilledArabic);
    if m.Some? {
      billed := Some(SignedValue(m.value[0]));
    } else {
      m := SearchGroups(t, BilledEnglish);
      if m.Some? {
        billed := Some(SignedValue(m.value[0]));
      }
    }
  }

  /** A money field: the decimal spelling, and only when it is absent the dinars-and-fils one. */
  method FindMoney(t: string, decimal: Pattern, split: Pattern) returns (amount: Option<Decimal>)
    requires IsDecimalPattern(decimal) && IsSplitPattern(split)
    ensures amount == MoneyField(t, decimal, split)
  {
    amount := None;
    var m := SearchGroups(t, decimal);
    if m.Some? {
      amount := ParseDecimalMaybe(Some(m.value[0]));
    } else {
      m := SearchGroups(t, split);
      if m.Some? {
        amount := Some(SplitAmount(m.value[0], m.value[1]));
      }
    }
  }

  /** A signed amount after either of two labels. */
  method FindSignedAmount(t: string, p: Pattern) returns (amount: Option<Decimal>)
    requires IsSignedAmountPattern(p)
    ensures amount == ParseDecimalMaybe(Capture(t, p, 0))
  {
    amount := None;
    var m := SearchGroups(t, p);
    if m.Some? {
      amount := ParseDecimalMaybe(Some(m.value[0]));
    }
  }

  /** The import row overwrites the summary readings when it matches. */
  method ReadImportRow(t: string, previous: Option<int>, current: Option<int>)
    returns (previous': Option<int>, current': Option<int>)
    requires previous == CaptureNat(t, SummaryPrevious, 0) && current == CaptureNat(t, SummaryCurrent, 0)
    ensures previous' == ImportPrevious(t) && current' == ImportCurrent(t)
  {
    ImportRowShapes();
    previous', current' := ReadTableRow(t, ImportRow, previous, current);
  }

  /** The export readings come from the export row alone. */
  method ReadExportRow(t: string) returns (previous: Option<int>, current: Option<int>)
    ensures previous == ExportPrevious(t) && current == ExportCurrent(t)
  {
    ExportRowShapes();
    previous, current := ReadTableRow(t, ExportRow, None, None);
  }

  method FindTotal(t: string) returns (total: Option<Decimal>)
    ensures total == TotalBillValue(t)
  {
    TotalDecimalShapes();
    TotalSplitShapes();
    total := FindMoney(t, TotalDecimal, TotalSplit);
  }

  method FindConsumption(t: string) returns (consumption: Option<Decimal>)
    ensures consumption == ConsumptionValue(t)
  {
    ConsumptionDecimalShapes();
    ConsumptionSplitShapes();
    consumption := FindMoney(t, ConsumptionDecimal, ConsumptionSplit);
  }

  method FindFixedSubsidy(t: string) returns (amount: Option<Decimal>)
    ensures amount == FixedSubsidyAmount(t)
  {
    FixedSubsidyShapes();
    amount := FindSignedAmount(t, FixedSubsidy);
  }

  method FindNetworkFee(t: string) returns (amount: Option<Decimal>)
    ensures amount == NetworkServicesFees(t)
  {
    NetworkFeeShapes();
    amount := FindSignedAmount(t, NetworkFee);
  }

  /**
   * `parse_electricity_text`: normalise the digits, then run the sections in the source's
   * order; the table rows overwrite the summary readings, and an impossible date stops the
   * extraction with its error.
   */
  method ParseElectricityText(rawText: Option<string>) returns (r: Result<ElectricityParsed, DateError>)
    ensures r == Expected(NormalizeDigits(rawText))
  {
    var t := NormalizeDigits(rawText);
    var meter := FindMeter(t);
    var period := FindPeriod(t);
    if period.Err? {
      return Err(period.error);
    }
    var rd := FindReadingDate(t);
    if rd.Err? {
      return Err(rd.error);
    }
    var impPrev, impCur := FindSummaryReadings(t);
    impPrev, impCur := ReadImportRow(t, impPrev, impCur);
    var expPrev, expCur := ReadExportRow(t);
    var billed := FindBilled(t);
    var total := FindTotal(t);
    var consumption := FindConsumption(t);
    var fixedSub := FindFixedSubsidy(t);
    var networkFee := FindNetworkFee(t);
    return Ok(ElectricityParsed(meter, period.value.start, period.value.end, rd.value,
                                impPrev, impCur, expPrev, expCur, billed,
                                total, consumption, networkFee, fixedSub));
  }

  // ---- properties of the extraction ----

  /** A digit is not whitespace, so a whitespace run that is followed by a digit ends at that digit. */
  lemma SpacesEndAtDigit(t: string, i: nat, k1: nat, k2: nat)
    requires i <= k1 < |t| && i <= k2 < |t|
    requires AllSpace(t[i..k1]) && AllSpace(t[i..k2]) && IsDigit(t[k1]) && IsDigit(t[k2])
    ensures k1 == k2
  {
  }

  lemma DateTokenStartsWithDigit(t: string, i: nat, k: nat)
    requires i <= k <= |t| && ShapeText(t[i..k], DateToken)
    ensures i < |t| && IsDigit(t[i])
  {
    assert t[i..k][..4][0] == t[i];
  }

  /**
   * The English period's `.*` is greedy: among all ways of matching at the start the search
   * found, the one taken puts "to" as far right as possible, so the end date is the last
   * "to <date>" on that line.
   */
  lemma PeriodEnglishTakesLastTo(t: string, b: seq<nat>)
    requires Search(t, PeriodEnglish).Some?
    requires Splits(t, PeriodEnglish.alts[0], true, b) && b[0] == Search(t, PeriodEnglish).value.start
    ensures b[4] <= Search(t, PeriodEnglish).value.bounds[4]
  {
    var f := Search(t, PeriodEnglish).value;
    var alt := PeriodEnglish.alts[0];
    var c := f.bounds;
    assert f.alt == 0;
    assert Splits(t, alt, true, c);
    assert LexLeq(b, c);
    assert alt[0] == Lit("from") && alt[1] == Spaces(0) && alt[2] == Group(DateToken);
    assert Spans(t, alt[0], true, b[0], b[1]) && Spans(t, alt[0], true, c[0], c[1]);
    assert Spans(t, alt[1], true, b[1], b[2]) && Spans(t, alt[1], true, c[1], c[2]);
    assert Spans(t, alt[2], true, b[2], b[3]) && Spans(t, alt[2], true, c[2], c[3]);
    DateTokenStartsWithDigit(t, b[2], b[3]);
    DateTokenStartsWithDigit(t, c[2], c[3]);
    SpacesEndAtDigit(t, b[1], b[2], c[2]);
    assert b[..4] == c[..4];
    LexLeqAt(b, c, 4);
  }

  /** A captured date token never yields `None`: the date is absent exactly when nothing was captured. */
  lemma DateOfCapture(w: Option<string>)
    requires w.Some? ==> ShapeText(w.value, DateToken)
    ensures DateOf(w).Ok? ==> (DateOf(w).value.None? <==> w.None?)
  {
    if w.Some? {
      ParseDateOfToken(w.value);
    }
  }

  /** When a period date parses, it is `None` exactly when neither period pattern matches. */
  lemma PeriodDateAbsentOnlyWithoutMatch(t: string, n: nat)
    requires n < 2 && DateOf(PeriodText(t, n)).Ok?
    ensures DateOf(PeriodText(t, n)).value.None? <==> !Matches(t, PeriodArabic) && !Matches(t, PeriodEnglish)
  {
    DateOfCapture(PeriodText(t, n));
  }

  /** When the reading date parses, it is `None` exactly when neither reading-date pattern matches. */
  lemma ReadingDateAbsentOnlyWithoutMatch(t: string)
    requires DateOf(ReadingDateText(t)).Ok?
    ensures DateOf(ReadingDateText(t)).value.None? <==> !Matches(t, ReadingDateArabic) && !Matches(t, ReadingDateEnglish)
  {
    DateOfCapture(ReadingDateText(t));
  }

  /** An impossible period start is what the extractor raises, whatever the rest of the text holds. */
  lemma ImpossibleStartRaised(t: string)
    requires PeriodText(t, 0).Some? && !ValidDay(TokenDate(PeriodText(t, 0).value))
    ensures Expected(t) == Err(ErrorOf(TokenDate(PeriodText(t, 0).value)))
  {
  }

  /** With the start absent or possible, an impossible period end is raised. */
  lemma ImpossibleEndRaised(t: string)
    requires PeriodDate(t, 0).Ok?
    requires PeriodText(t, 1).Some? && !ValidDay(TokenDate(PeriodText(t, 1).value))
    ensures Expected(t) == Err(ErrorOf(TokenDate(PeriodText(t, 1).value)))
  {
  }

  /** With both period dates absent or possible, an impossible reading date is raised. */
  lemma ImpossibleReadingDateRaised(t: string)
    requires PeriodDates(t).Ok?
    requires ReadingDateText(t).Some? && !ValidDay(TokenDate(ReadingDateText(t).value))
    ensures Expected(t) == Err(ErrorOf(TokenDate(ReadingDateText(t).value)))
  {
  }

  /** The characters of an amount capture are digits, points and minus signs: no whitespace, no comma, no plus. */
  lemma AmountCharsArePlain(w: string, signed: bool)
    requires ShapeText(w, AmountChars(signed))
    ensures forall i :: 0 <= i < |w| ==> !IsSpace(w[i]) && w[i] != ','
    ensures w[0] != '+' && (!signed ==> w[0] != '-')
  {
    forall i | 0 <= i < |w| ensures !IsSpace(w[i]) && w[i] != ',' {
      assert IsDigit(w[i]) || w[i] == '.' || w[i] == '-';
    }
  }

  /** What a `[\d\.]+` or `[\-\d\.]+` capture gives: a number exactly when it is decimal syntax. */
  lemma AmountCaptureParses(w: string, signed: bool)
    requires ShapeText(w, AmountChars(signed))
    ensures ParseDecimalMaybe(Some(w)).Some? <==> DecimalSyntax(Unsigned(w))
    ensures !signed ==> Unsigned(w) == w
  {
    AmountCharsArePlain(w, signed);
    PlainParses(w);
  }

  lemma PlainParses(w: string)
    requires forall i :: 0 <= i < |w| ==> !IsSpace(w[i]) && w[i] != ','
    ensures ParseDecimalMaybe(Some(w)).Some? <==> DecimalSyntax(Unsigned(w))
  {
    PlainDecimalText(w);
    assert ParseDecimalMaybe(Some(w)) == DecimalLiteral(w);
  }

  /** Dinars followed by three fils digits, read as one digit string, count thousandths. */
  lemma ThousandthsOfDigits(d: string, fils: string)
    requires AllDigits(d) && |fils| == 3 && AllDigits(fils)
    ensures AllDigits(d + fils)
    ensures DigitsValue(d + fils) == DigitsValue(d) * 1000 + DigitsValue(fils)
  {
    DigitsValueAppend(d, fils);
    assert Pow10(3) == 1000;
  }

  /**
   * With unsigned dinars, the split form is the same number as the point form "din.fil"
   * (which keeps all three decimals, so the two can differ in exponent only).
   */
  lemma SplitAgreesWithPointForm(din: string, fils: string)
    requires |din| > 0 && AllDigits(din) && |fils| == 3 && AllDigits(fils)
    ensures SignedDigitText(din)
    ensures ParseDecimalMaybe(Some(din + "." + fils)).Some?
    ensures SameValue(ParseDecimalMaybe(Some(din + "." + fils)).value, SplitAmount(din, fils))
  {
    PointNumber(din, fils);
    UnsignedSplitValue(din, fils);
  }

  lemma UnsignedSplitValue(din: string, fils: string)
    requires |din| > 0 && AllDigits(din) && |fils| == 3 && AllDigits(fils)
    ensures SignedDigitText(din) && AllDigits(din + fils)
    ensures SameValue(Decimal(DigitsValue(din + fils), 3), SplitAmount(din, fils))
  {
    ThousandthsOfDigits(din, fils);
    assert din[0] != '-';
    var p := Decimal(DigitsValue(din + fils), 3);
    Pow10Small();
    assert Thousandths(p) == Thousandths(SplitAmount(din, fils));
    SameValueInThousandths(p, SplitAmount(din, fils));
  }

  /**
   * With negative dinars and non-zero fils the split form is not the point form: the fils are
   * added to the negative dinars, so "-2" and "500" give -1.5 where "-2.500" is -2.5.
   */
  lemma NegativeSplitDiffers(d: string, fils: string)
    requires |d| > 0 && AllDigits(d) && |fils| == 3 && AllDigits(fils) && DigitsValue(fils) > 0
    ensures SignedDigitText("-" + d)
    ensures Thousandths(SplitAmount("-" + d, fils)) == DigitsValue(fils) - DigitsValue(d) * 1000
    ensures ParseDecimalMaybe(Some("-" + d + "." + fils)).Some?
    ensures !SameValue(SplitAmount("-" + d, fils), ParseDecimalMaybe(Some("-" + d + "." + fils)).value)
  {
    var din := "-" + d;
    assert SignedDigitText(din) && SignedValue(din) == -(DigitsValue(d) as int) by {
      assert din[0] == '-' && din[1..] == d;
    }
    NegativePointDigits(d, fils);
    ThousandthsOfDigits(d, fils);
    var p := ParseDecimalMaybe(Some("-" + d + "." + fils)).value;
    Pow10Small();
    assert Thousandths(p) == -(DigitsValue(d) * 1000 + DigitsValue(fils));
    SameValueInThousandths(SplitAmount(din, fils), p);
  }

  lemma NegativePointDigits(d: string, fils: string)
    requires |d| > 0 && AllDigits(d) && AllDigits(fils)
    ensures AllDigits(d + fils)
    ensures ParseDecimalMaybe(Some("-" + d + "." + fils)) == Some(Decimal(-(DigitsValue(d + fils) as int), |fils|))
  {
    var b := "-" + (d + "." + fils);
    assert "-" + d + "." + fils == b;
    SignedPointNumber(d, fils, b);
  }

  /** "-2" dinars and "500" fils make -1.5, and "12" with "000" makes 12 at exponent 0. */
  lemma SplitExample()
    ensures SplitAmount("-2", "500") == Decimal(-15, 1)
    ensures SplitAmount("12", "000") == Decimal(12, 0)
  {
    assert "-2"[1..] == "2";
    assert DigitsValue("2") == 2;
    assert DigitsValue("12") == 12 by {
      assert "12"[..1] == "1";
    }
  }

  /**
   * The billed quantity keeps its sign: text that reads the Arabic label and then `-` and
   * digits gives a negative `billed_kwh`, with no check against the readings.
   */
  lemma NegativeBilledKwh(d: string)
    requires |d| > 0 && AllDigits(d)
    ensures BilledKwh("الكمية المفوترة" + ("-" + d)).Some?
    ensures BilledKwh("الكمية المفوترة" + ("-" + d)).value == -(DigitsValue(d) as int)
  {
    LabelThenNegative(BilledArabic, "الكمية المفوترة", d);
  }
}
