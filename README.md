# utility-bills: bill-text extraction and reconciliation, in Dafny

This project models the part of the `utility_bills` Django app that turns OCR text of a
Jordanian electricity or water bill into structured readings and then checks them. That part is:

- the digit normaliser, which maps Arabic-Indic digits to ASCII;
- the total "maybe decimal" parser used on money captures;
- the layout classifier;
- the electricity and water extractors, built on label-and-number regular expressions;
- the consistency rules of the confirmation forms and of the bill models. These cover reading
  order, the kWh properties, the billed-versus-net mismatch and the ordered list of review reasons.

Modules follow the source files:

| module | file | models |
|---|---|---|
| `Normalizers` | normalizers.dfy | `normalize_digits`, `parse_decimal_maybe` |
| `Classifiers` | classifiers.dfy | `classify_layout` |
| `Patterns` | patterns.dfy | the fragment of `re.search` the extractors use: leftmost start, alternatives in order, greedy quantifiers, and `.*` that does not cross a newline |
| `Dates` | dates.dfy | `datetime.date(y, m, d)`: the calendar check and the error it raises |
| `ElectricityParser` | electricity_parser.dfy | `ElectricityParsed`, `_parse_date`, `parse_electricity_text` |
| `WaterParser` | water_parser.dfy | `WaterParsed`, `parse_water_text` |
| `Models` | models.dfy | `UtilityBill.clean`, `ElectricityBill` properties and `clean`, `WaterBill.consumption_m3` and `clean` |
| `Forms` | forms.dfy | the `clean` ordering checks of the three bill forms, `compute_needs_review` |

`Wrappers` (Option, Result) and `Text` (character classes, digit strings, `str(int)`, `strip`,
`replace(",", "")`, substring containment) are shared helpers.

How the source's behaviour is represented:

- Money is an exact `Decimal(coefficient, scale)`, read as coefficient / 10^scale, as Python's
  `Decimal` stores it. Datatype equality compares representations; `Normalizers.SameValue` is
  `Decimal`'s `==`, which compares values.
- The split dinar/fils form `Decimal(din) + Decimal(fils) / Decimal(1000)` is worth
  `din * 1000 + fils` thousandths. Its exponent is the one Python's exact division gives: the
  fils' trailing zeros are dropped, so "12 500" is 12.5 (scale 1) and "12 000" is 12 (scale 0).
- `_parse_date` raising on an impossible date is the `Err(InvalidDate(y, m, d))` branch of a
  `Result`. `parse_electricity_text` returns the first such error, in evaluation order: period
  start, period end, reading date.
- `parse_electricity_text` assigns and overwrites locals in sequence. It is a method made of one
  method per section, called in the source's order. Its result is proved equal to `Expected`,
  which gives each field as a function of the text.
- `compute_needs_review` appends to a list. It is a method, proved equal to the function
  `ReviewReasons`.
- `ElectricityBill.clean` fills a dictionary. It is a method returning the map; an empty map
  means `clean` returns and a non-empty one means it raises `ValidationError` with that map.
- The other `clean` methods are functions returning `Result` or an error map.
- Form inputs are already-typed optional integers (`Option<int>`).
- `compute_needs_review` takes `meter_found` as a free input.
- `OcrConfirmElectricityForm.clean` and `ElectricityManualBillForm.clean` have the same body
  (forms.py:48-67 and forms.py:138-157). One function, `Forms.CleanElectricityForm`, models both.

## Model

| member | source | states |
|---|---|---|
| Normalizers.NormalizeDigits | utility_bills/services/normalizers.py:10-16 | the result has the length of `text or ""`; position by position, the k-th Arabic-Indic digit becomes '0'+k and every other character is kept; the result holds no Arabic-Indic digit |
| Normalizers.NormalizeCharMeaning | utility_bills/services/normalizers.py:10-12 | the translation table sends U+0660+k to the ASCII digit k and leaves every other character alone |
| Normalizers.ArabicDigitTable | utility_bills/services/normalizers.py:10-12 | the k-th character of the Arabic digit string is U+0660+k, and normalising it gives the ASCII digit k |
| Normalizers.NormalizeDigitsIdentity | utility_bills/services/normalizers.py:15-16 | text without Arabic-Indic digits is returned unchanged |
| Normalizers.NormalizeDigitsIdempotent | utility_bills/services/normalizers.py:15-16 | normalising twice equals normalising once |
| Normalizers.DecimalLiteral | utility_bills/services/normalizers.py:25-28 | `Decimal(v)` succeeds exactly on decimal syntax (optional sign, digits, at most one point, at least one digit); the value is all digits read as one integer, signed, over 10 to the number of fractional digits |
| Normalizers.ParseDecimalMaybe | utility_bills/services/normalizers.py:19-28 | `None` for `None`; `None` when the text is empty after `strip()` and comma removal; otherwise the `Decimal` reading of the comma-free stripped text, `None` when `Decimal` rejects it |
| Normalizers.CommasIgnored | utility_bills/services/normalizers.py:22 | parsing text equals parsing it with every comma removed |
| Normalizers.ThousandsSeparator | utility_bills/services/normalizers.py:22 | "a,b" parses like "ab" ("1,234.5" like "1234.5") |
| Normalizers.PlainDecimalText | utility_bills/services/normalizers.py:22-26 | text without whitespace or commas reaches `Decimal` unchanged |
| Normalizers.LonePointIsNone | utility_bills/services/normalizers.py:25-28 | "." (and any run of points) gives `None`, not an exception |
| Normalizers.LoneSignIsNone | utility_bills/services/normalizers.py:25-28 | "-" or "+" alone gives `None` |
| Normalizers.InnerSignIsNone | utility_bills/services/normalizers.py:25-28 | digits, a minus and digits ("1-2") give `None` |
| Normalizers.TwoPointsIsNone | utility_bills/services/normalizers.py:25-28 | three digit runs separated by two points ("1.2.3") give `None` |
| Normalizers.NotDecimalIsNone | utility_bills/services/normalizers.py:25-28 | plain text that is not decimal syntax gives `None` |
| Normalizers.PointNumber | utility_bills/services/normalizers.py:26 | "a.f" parses to the digits of a and f as one integer at scale \|f\| |
| Normalizers.SignedPointNumber | utility_bills/services/normalizers.py:26 | "-a.f" parses to the negation of that value: the sign applies to the whole number |
| Text.StripAfterRemovingCommas | utility_bills/services/normalizers.py:22-26 | `strip()`, then comma removal, then the strip `Decimal` applies, leaves the same text as removing the commas before stripping |
| Text.IntToString | utility_bills/forms.py:187 | the decimal text an f-string gives for an int is a signed digit string that reads back as that int; it starts with `-` exactly for a negative int and has no leading zero (no "07", no "-0") |
| Text.Contains | utility_bills/services/classifiers.py:21-24 | `m in t` holds exactly when m occurs at some position of t |
| Classifiers.ClassifyLayout | utility_bills/services/classifiers.py:14-25 | `electricity_detailed` exactly when a detailed marker occurs; `electricity_summary` exactly when none does and a summary marker does; `unknown` exactly when neither kind occurs; never `water_unknown` |
| Classifiers.EmptyIsUnknown | utility_bills/services/classifiers.py:20-25 | `None` or empty text is `unknown` |
| Classifiers.DetailedSurvivesMoreText | utility_bills/services/classifiers.py:21-22 | text classified detailed stays detailed with anything added before or after it |
| Classifiers.ClassifyIgnoresDigitScript | utility_bills/services/classifiers.py:14-25 | the markers hold no digits, so the layout of digit-normalised text is the layout of the raw text |
| Patterns.Search | utility_bills/parsers/electricity_parser.py:50 | `re.search`: `None` exactly when the pattern matches nowhere; otherwise the match starts at the leftmost position with any match, uses the first alternative matching there, and has the boundaries the greedy engine prefers (lexicographically greatest) |
| Patterns.SearchGroups | utility_bills/parsers/electricity_parser.py:50-52 | `m.groups()`: `None` exactly when there is no match; otherwise one text per capturing group, each of its group's shape |
| Patterns.Capture | utility_bills/parsers/electricity_parser.py:50-52 | `m.group(n)`: absent exactly when the pattern does not match, and otherwise of the group's shape |
| Patterns.CaptureNat | utility_bills/parsers/electricity_parser.py:83-85 | `int(m.group(n))` of a `\d+` group: absent exactly when there is no match, otherwise the non-negative value of the captured digits |
| Patterns.CaptureInt | utility_bills/parsers/electricity_parser.py:107-109 | `int(m.group(n))` of a `-?\d+` group: the signed value of the capture |
| Patterns.LabelThenGroup | utility_bills/parsers/electricity_parser.py:50-52 | a label followed directly by text of the group's shape is found, and the group captures exactly that text |
| Patterns.LabelThenNegative | utility_bills/parsers/electricity_parser.py:107-109 | after a label, "-d" is captured whole by `-?\d+` and reads as minus the value of d |
| Dates.CalendarDate | utility_bills/parsers/electricity_parser.py:42 | `date(y, mo, d)` succeeds exactly on a valid Gregorian date, with that date; otherwise it raises, carrying the three numbers |
| Dates.LeapDay | utility_bills/parsers/electricity_parser.py:42 | 29 February exists in 2024 and 2000, and raises in 2023 and 1900 |
| ElectricityParser.ParseDate | utility_bills/parsers/electricity_parser.py:37-42 | `Ok(None)` exactly when there is no `dddd/dd/dd` token; a returned date is valid; an error names an impossible date |
| ElectricityParser.DateTokenFound | utility_bills/parsers/electricity_parser.py:34-38 | on a date token, `_DATE_RE.search` matches at 0 with groups at 0-4, 5-7 and 8-10 |
| ElectricityParser.ParseDateOfToken | utility_bills/parsers/electricity_parser.py:38-42 | on a date token, `_parse_date` is `date` applied to the numbers of its year, month and day digits |
| ElectricityParser.ImpossibleDateRaises | utility_bills/parsers/electricity_parser.py:42 | "2024/13/40" raises the invalid-date error instead of returning `None` |
| ElectricityParser.MeterNumber | utility_bills/parsers/electricity_parser.py:48-56 | the Arabic pattern's digits when it matches, else the English pattern's; absent exactly when neither matches; a present value is a non-empty digit string |
| ElectricityParser.PeriodText | utility_bills/parsers/electricity_parser.py:58-69 | start or end date text from the Arabic period pattern when it matches, else from the English one; absent exactly when neither matches |
| ElectricityParser.PeriodEnglishTakesLastTo | utility_bills/parsers/electricity_parser.py:66 | among all ways the English period pattern matches at the chosen start, the match taken ends `.*` at the furthest point, so it takes the last `to <date>` on the line |
| ElectricityParser.DateOf | utility_bills/parsers/electricity_parser.py:61-64 | `_parse_date` of a captured date, `None` without a capture: a possible date token gives that date, an impossible one gives the error naming its year, month and day |
| ElectricityParser.PeriodDate | utility_bills/parsers/electricity_parser.py:58-69 | the period start or end: `None` without a period match, otherwise the date of the captured token or the error naming it |
| ElectricityParser.PeriodDates | utility_bills/parsers/electricity_parser.py:58-69 | succeeds exactly when both period dates do, with both; otherwise the start's error if the start is impossible, else the end's; present dates are valid |
| ElectricityParser.PeriodDateAbsentOnlyWithoutMatch | utility_bills/parsers/electricity_parser.py:58-69 | when no error is raised, a period date is `None` exactly when neither period pattern matches |
| ElectricityParser.ReadingDateText | utility_bills/parsers/electricity_parser.py:71-78 | Arabic reading-date pattern first, English only when it does not match; absent exactly when neither matches |
| ElectricityParser.ReadingDate | utility_bills/parsers/electricity_parser.py:71-78 | `None` without a reading-date match; otherwise the date of the captured token, or the error naming it when it is impossible; a present date is valid |
| ElectricityParser.ReadingDateAbsentOnlyWithoutMatch | utility_bills/parsers/electricity_parser.py:71-78 | when no error is raised, the reading date is `None` exactly when neither pattern matches |
| ElectricityParser.ImportPrevious | utility_bills/parsers/electricity_parser.py:80-98 | the import table row's second number when the row matches (overriding the summary label), else the summary "previous reading"; absent exactly when neither matches; never negative |
| ElectricityParser.ImportCurrent | utility_bills/parsers/electricity_parser.py:80-98 | the import table row's first number when the row matches, else the summary "current reading"; absent exactly when neither matches; never negative |
| ElectricityParser.ExportPrevious | utility_bills/parsers/electricity_parser.py:90-103 | only the export table row sets it: its second number; absent exactly when the row does not match; never negative |
| ElectricityParser.ExportCurrent | utility_bills/parsers/electricity_parser.py:90-103 | only the export table row sets it: its first number; absent exactly when the row does not match; never negative |
| ElectricityParser.BilledKwh | utility_bills/parsers/electricity_parser.py:105-113 | the Arabic pattern's signed number when it matches, else the English one's; absent exactly when neither matches |
| ElectricityParser.NegativeBilledKwh | utility_bills/parsers/electricity_parser.py:107-109 | the billed quantity may be negative: the label then "-d" gives minus the value of d |
| ElectricityParser.SplitAmount | utility_bills/parsers/electricity_parser.py:123-125 | `Decimal(din) + Decimal(fils)/1000`: worth din * 1000 + fils thousandths, the sign belonging to din alone; at most three decimals and no trailing zero among them, scale 0 exactly when the fils are "000" |
| ElectricityParser.SplitCapture | utility_bills/parsers/electricity_parser.py:121-125 | the split form: absent exactly when its pattern does not match, otherwise `SplitAmount` of the two captured groups |
| ElectricityParser.SameValueInThousandths | utility_bills/parsers/electricity_parser.py:125 | two amounts of at most three decimals are equal as `Decimal`s exactly when they are the same number of fils |
| ElectricityParser.MoneyField | utility_bills/parsers/electricity_parser.py:115-125 | the decimal form when its pattern matches, even if `parse_decimal_maybe` then gives `None`; the split form only when the decimal pattern does not match; `None` when neither matches |
| ElectricityParser.TotalBillValue | utility_bills/parsers/electricity_parser.py:115-125 | the total bill value follows that precedence with its own two patterns |
| ElectricityParser.ConsumptionValue | utility_bills/parsers/electricity_parser.py:127-136 | the consumption value follows that precedence with its own two patterns |
| ElectricityParser.FixedSubsidyAmount | utility_bills/parsers/electricity_parser.py:138-141 | `None` when neither label alternative matches |
| ElectricityParser.NetworkServicesFees | utility_bills/parsers/electricity_parser.py:143-146 | `None` when neither label alternative matches |
| ElectricityParser.AmountCaptureParses | utility_bills/parsers/electricity_parser.py:117-119 | a `[\d\.]+` or `[\-\d\.]+` capture parses exactly when it is decimal syntax, so "1.2.3" after the label gives `None` |
| ElectricityParser.SplitAgreesWithPointForm | utility_bills/parsers/electricity_parser.py:121-125 | for a non-negative din, the split form is `Decimal`-equal to parsing "din.fils" |
| ElectricityParser.NegativeSplitDiffers | utility_bills/parsers/electricity_parser.py:121-125 | for a negative din and non-zero fils, the split form adds the fils (fils - d * 1000 thousandths), so it is not `Decimal`-equal to parsing "-d.fils" |
| ElectricityParser.SplitExample | utility_bills/parsers/electricity_parser.py:123-125 | din "-2" with fils "500" is -1.5 (scale 1); din "12" with fils "000" is 12 (scale 0) |
| ElectricityParser.Expected | utility_bills/parsers/electricity_parser.py:45-161 | the whole record as a function of the normalised text; it succeeds exactly when the period and the reading date do; otherwise the period's error comes before the reading date's; the dates of a success are those two results; every present date is valid |
| ElectricityParser.ImpossibleStartRaised | utility_bills/parsers/electricity_parser.py:61-63 | an impossible captured start date makes the whole parse fail with its error |
| ElectricityParser.ImpossibleEndRaised | utility_bills/parsers/electricity_parser.py:61-64 | with a possible start, an impossible captured end date makes the whole parse fail with its error |
| ElectricityParser.ImpossibleReadingDateRaised | utility_bills/parsers/electricity_parser.py:71-74 | with a possible period, an impossible captured reading date makes the whole parse fail with its error |
| ElectricityParser.FindMeter | utility_bills/parsers/electricity_parser.py:48-56 | the meter section computes `MeterNumber` |
| ElectricityParser.FindPeriod | utility_bills/parsers/electricity_parser.py:58-69 | the period section computes `PeriodDates` |
| ElectricityParser.FindReadingDate | utility_bills/parsers/electricity_parser.py:71-78 | the reading-date section computes the reading date or its error |
| ElectricityParser.FindSummaryReadings | utility_bills/parsers/electricity_parser.py:80-88 | the summary labels' numbers, each absent when its label does not match |
| ElectricityParser.ReadTableRow | utility_bills/parsers/electricity_parser.py:94-103 | a matching table row overwrites current with its first and previous with its second number; otherwise both keep their values |
| ElectricityParser.ReadImportRow | utility_bills/parsers/electricity_parser.py:94-98 | after the import row, the readings are `ImportPrevious` and `ImportCurrent` |
| ElectricityParser.ReadExportRow | utility_bills/parsers/electricity_parser.py:90-103 | the export readings are `ExportPrevious` and `ExportCurrent` |
| ElectricityParser.FindBilled | utility_bills/parsers/electricity_parser.py:105-113 | the billed section computes `BilledKwh` |
| ElectricityParser.FindMoney | utility_bills/parsers/electricity_parser.py:115-136 | a money section computes `MoneyField` |
| ElectricityParser.FindTotal | utility_bills/parsers/electricity_parser.py:115-125 | the total section computes `TotalBillValue` |
| ElectricityParser.FindConsumption | utility_bills/parsers/electricity_parser.py:127-136 | the consumption section computes `ConsumptionValue` |
| ElectricityParser.FindSignedAmount | utility_bills/parsers/electricity_parser.py:138-146 | a signed-amount section gives `parse_decimal_maybe` of the capture |
| ElectricityParser.FindFixedSubsidy | utility_bills/parsers/electricity_parser.py:138-141 | the subsidy section computes `FixedSubsidyAmount` |
| ElectricityParser.FindNetworkFee | utility_bills/parsers/electricity_parser.py:143-146 | the fee section computes `NetworkServicesFees` |
| ElectricityParser.ParseElectricityText | utility_bills/parsers/electricity_parser.py:45-161 | `parse_electricity_text` on `raw_text or ""` returns `Expected` of the digit-normalised text, or the first date error |
| WaterParser.ParseWaterText | utility_bills/parsers/water_parser.py:24-52 | both period fields are always `None`; the meter number is the first group of its pattern on the normalised text, and each reading and billed m3 is `int` of its pattern's first group; each field is absent exactly when its Arabic pattern does not match (no English fallback); readings and billed m3 are never negative; a meter number is a non-empty digit string |
| WaterParser.DigitScriptIrrelevant | utility_bills/parsers/water_parser.py:25 | parsing already-normalised text gives the same record as parsing the raw text |
| Models.CleanUtilityBill | utility_bills/models.py:89-94 | an error (only under `utility_type`, with the source's message) exactly when a meter is set, the bill's type is non-empty and it differs from the meter's |
| Models.UtilityTypeMustAgree | utility_bills/models.py:89-94 | with a meter and a type set, `clean` accepts exactly when the two types agree |
| Models.ImportKwh | utility_bills/models.py:137-139 | previous + import kWh = current |
| Models.ExportKwh | utility_bills/models.py:141-145 | 0 when either export reading is `None`, otherwise previous + export kWh = current |
| Models.NetKwh | utility_bills/models.py:147-149 | net + export kWh = import kWh |
| Models.BilledKwhMismatch | utility_bills/models.py:151-156 | never when nothing was billed; otherwise exactly when billed + export kWh differs from import kWh |
| Models.CleanElectricityBill | utility_bills/models.py:121-135 | an `import_current` error exactly when import ran backwards; an `export_current` error exactly when both exports are present and ran backwards; both are reported together with the source's messages; no error exactly when the readings are ordered |
| Models.AcceptedBillEnergyNonNegative | utility_bills/models.py:121-145 | after a successful `clean`, import and export kWh are non-negative and net does not exceed import |
| Models.NoExportNetIsImport | utility_bills/models.py:141-156 | without both export readings, net is current - previous import, and the mismatch compares billed with that |
| Models.ConsumptionM3 | utility_bills/models.py:181-183 | previous + consumption = current |
| Models.CleanWaterBill | utility_bills/models.py:174-179 | a `current_reading` error, with the source's message, exactly when current < previous |
| Models.WaterCleanRejectsNegativeConsumption | utility_bills/models.py:174-183 | `clean` accepts exactly when consumption is non-negative |
| Forms.CleanElectricityForm | utility_bills/forms.py:138-157 | accepts, returning the data unchanged, exactly when neither reading pair is present and backwards; the import error is raised first, the export error only when import is in order |
| Forms.CleanWaterForm | utility_bills/forms.py:81-92 | accepts, returning the data unchanged, unless both readings are present and current < previous, which raises the source's message |
| Forms.ComputedNet | utility_bills/forms.py:178-183 | present exactly when both import readings are; then import difference minus export difference, with export 0 unless both export readings are present |
| Forms.MismatchReason | utility_bills/forms.py:187 | the f-string starts "Billed kWh (", ends with ")", and the billed figure's `str` follows the opening parenthesis up to the next ")" |
| Forms.ReviewReasons | utility_bills/forms.py:166-188 | at most two reasons, and at least one exactly when the meter was not found or billed differs from the computed net |
| Forms.ComputeNeedsReview | utility_bills/forms.py:159-190 | the reasons are `ReviewReasons(data, meter_found)`, and `needs_review` holds exactly when the list is non-empty |
| Forms.ReviewReasonsOrder | utility_bills/forms.py:166-188 | at most two reasons: the meter reason exactly when the meter was not found, and then first; the mismatch reason exactly when billed is present and differs from the computed net, and then last |
| Forms.NoImportNoMismatch | utility_bills/forms.py:178 | with an import reading absent, no mismatch reason is added whatever billed is |
| Forms.MeterReasonIsNotMismatch | utility_bills/forms.py:168-188 | the meter reason is never a mismatch text, so the two kinds cannot be confused |
| Forms.MismatchReasonDetermines | utility_bills/forms.py:185-188 | the mismatch text determines the billed and net values written into it |
| Forms.ReviewAgreesWithBill | utility_bills/forms.py:178-188 | for a saved bill's readings, the form's computed net is `ElectricityBill.net_kwh` and its mismatch test is `billed_kwh_mismatch` |
| Forms.FormCleanAgreesWithBill | utility_bills/forms.py:138-157 | on a bill's readings the form's `clean` accepts exactly when `ElectricityBill.clean` does |
| Forms.WaterFormAgreesWithBill | utility_bills/forms.py:81-92 | on a water bill's readings the form's `clean` accepts exactly when `WaterBill.clean` does |

## Left out

- Views, OCR, the ORM and HTTP handling (views.py, ocr_engine.py, admin.py, urls.py, settings) are not part of this model. They are I/O, foreign OCR libraries and wiring.
- In the views `compute_needs_review` is only reached with `meter_found` true. The model keeps `meter_found` a free input.
- Django field machinery (`min_value`, `max_digits`, `max_length`, `required`, type coercion) is not modelled. Form data is taken as already-typed optional integers.
- `\d` is modelled as the ASCII digits. Python's `\d` also matches other Unicode decimal digits, such as Persian digits U+06F0-U+06F9, which `normalize_digits` does not translate.
- `\s` is `str.isspace()`'s whitespace set. `re.IGNORECASE` is modelled as ASCII case folding; only the English labels use it.
- Python's `Decimal` grammar is restricted to a sign, digits and at most one point. Exponents, `NaN`, `Infinity` and underscores are left out: no capture the extractor makes can contain them.
- Normalizers.ParseDecimalMaybe: results are `(coefficient, scale)` pairs, so "1.50" and "1.5" are different representations here, as in Python; `SameValue` is the value comparison. The 28-digit context precision of `Decimal` arithmetic is not modelled; the split form is exact.
- Normalizers.ParseDecimalMaybe: the sign of a negative zero is lost: `Decimal("-0")` and `Decimal("-0.00")` keep a negative sign in Python, here they are coefficient 0. The split form cannot produce one, since its dinars pass through `int` first.
- Patterns.CaptureNat and Patterns.CaptureInt: Python 3.11 (and 3.10.7 on) raises `ValueError` from `int()` on a capture of more than 4300 digits; the model reads any length. Likewise Text.IntToString renders any int, where `str()` of such an int in the f-string of `compute_needs_review` raises.
- Classifiers.ClassifyLayout: `water_unknown` belongs to the result type but is never returned; the ensures state that.
- ElectricityParser.ExportPrevious and ExportCurrent are stated through the row's group indices (`CaptureNat(t, ExportRow, 1)` and `0`). No concrete table-row text is worked through, because unfolding the regular-expression model on literal Arabic rows is beyond the verifier's budget. Patterns.LabelThenGroup gives the one-group case in general.
- ElectricityParser.FixedSubsidyAmount and NetworkServicesFees: their ensures state only the absent case. The present case is `parse_decimal_maybe` of the capture, which FindSignedAmount states.
- ElectricityParser.ParseElectricityText: the one Python function is split into one method per section, called in the source's order. The locals the source overwrites are the methods' out-parameters.
- ElectricityParser.NegativeSplitDiffers records source behaviour, not a defect: the split form keeps the sign on the dinars, so "-2 500" is -1.5 and not -2.5.
