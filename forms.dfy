/**
 * utility_bills/forms.py: the cross-field checks of the bill forms and the review decision
 * taken when an OCR-read electricity bill is confirmed. Field-level validation (types,
 * `min_value`, required fields) has already run: a field that failed it reads as `None`.
 */
module Forms {
  import opened Wrappers
  import opened Text
  import opened Models

  /** The cleaned readings of an electricity form (manual entry or OCR confirmation). */
  datatype ElectricityReadings = ElectricityReadings(
    importPrevious: Option<int>,
    importCurrent: Option<int>,
    exportPrevious: Option<int>,
    exportCurrent: Option<int>,
    billedKwh: Option<int>)

  /** The cleaned readings of a water form. */
  datatype WaterReadings = WaterReadings(
    previousReading: Option<int>,
    currentReading: Option<int>,
    billedM3: Option<int>)

  /** Both readings are known and the meter ran backwards. */
  predicate RanBackwards(previous: Option<int>, current: Option<int>) {
    previous.Some? && current.Some? && current.value < previous.value
  }

  // ---- `clean` ----

  /**
   * `clean` of both electricity forms (the manual form and the OCR confirmation form share
   * the code): the import pair is checked first, then the export pair, each only when both of
   * its readings are present; the first failure is the one raised.
   */
  function CleanElectricityForm(d: ElectricityReadings): (r: Result<ElectricityReadings, string>)
    ensures r.Ok? <==> !RanBackwards(d.importPrevious, d.importCurrent) && !RanBackwards(d.exportPrevious, d.exportCurrent)
    ensures r.Ok? ==> r.value == d
    ensures RanBackwards(d.importPrevious, d.importCurrent) ==> r == Err(ImportOrderMessage)
    ensures !RanBackwards(d.importPrevious, d.importCurrent) && RanBackwards(d.exportPrevious, d.exportCurrent) ==>
      r == Err(ExportOrderMessage)
  {
    if d.importPrevious.Some? && d.importCurrent.Some? && d.importCurrent.value < d.importPrevious.value then
      Err(ImportOrderMessage)
    else if d.exportPrevious.Some? && d.exportCurrent.Some? && d.exportCurrent.value < d.exportPrevious.value then
      Err(ExportOrderMessage)
    else
      Ok(d)
  }

  /** `WaterManualBillForm.clean`: rejects a current reading below the previous one. */
  function CleanWaterForm(d: WaterReadings): (r: Result<WaterReadings, string>)
    ensures r.Ok? <==> !RanBackwards(d.previousReading, d.currentReading)
    ensures r.Ok? ==> r.value == d
    ensures r.Err? ==> r.error == WaterOrderMessage
  {
    if d.previousReading.Some? && d.currentReading.Some? && d.currentReading.value < d.previousReading.value then
      Err(WaterOrderMessage)
    else
      Ok(d)
  }

  // ---- `compute_needs_review` ----

  const MeterNotFoundReason: string := "Meter not found in user's registered meters"

  /** The f-string of the mismatch reason, with Python's `str` of both integers. */
  function MismatchReason(billed: int, net: int): (r: string)
    ensures |r| > 12 && r[..12] == "Billed kWh (" && r[|r| - 1] == ')'
    ensures 12 + |IntToString(billed)| < |r|
    ensures r[12..12 + |IntToString(billed)|] == IntToString(billed) && r[12 + |IntToString(billed)|] == ')'
  {
    "Billed kWh (" + IntToString(billed) + (") != computed net kWh (" + IntToString(net) + ")")
  }

  /**
   * The net energy the review compares with: only when both import readings are known, and
   * counting export as 0 unless both export readings are known.
   */
  function ComputedNet(d: ElectricityReadings): (r: Option<int>)
    ensures r.Some? <==> d.importPrevious.Some? && d.importCurrent.Some?
    ensures r.Some? && (d.exportPrevious.None? || d.exportCurrent.None?) ==>
      d.importPrevious.value + r.value == d.importCurrent.value
    ensures r.Some? && d.exportPrevious.Some? && d.exportCurrent.Some? ==>
      d.importPrevious.value + r.value + (d.exportCurrent.value - d.exportPrevious.value) == d.importCurrent.value
  {
    if d.importPrevious.Some? && d.importCurrent.Some? then
      var exportKwh := if d.exportPrevious.Some? && d.exportCurrent.Some? then d.exportCurrent.value - d.exportPrevious.value else 0;
      Some(d.importCurrent.value - d.importPrevious.value - exportKwh)
    else
      None
  }

  /** A billed figure that disagrees with the computed net; never without both import readings. */
  predicate HasMismatch(d: ElectricityReadings) {
    ComputedNet(d).Some? && d.billedKwh.Some? && d.billedKwh.value != ComputedNet(d).value
  }

  /** The reasons for review, in order: the missing meter, then the billed/net disagreement. */
  function ReviewReasons(d: ElectricityReadings, meterFound: bool): (r: seq<string>)
    ensures |r| <= 2
    ensures |r| > 0 <==> !meterFound || HasMismatch(d)
  {
    (if meterFound then [] else [MeterNotFoundReason]) +
    (if HasMismatch(d) then [MismatchReason(d.billedKwh.value, ComputedNet(d).value)] else [])
  }

  /**
   * `compute_needs_review`: appends the reasons one by one and needs review exactly when it
   * found one.
   */
  method ComputeNeedsReview(d: ElectricityReadings, meterFound: bool) returns (needsReview: bool, reasons: seq<string>)
    ensures reasons == ReviewReasons(d, meterFound)
    ensures needsReview <==> |reasons| > 0
  {
    reasons := [];
    if !meterFound {
      reasons := reasons + [MeterNotFoundReason];
    }
    ghost var meterReasons := reasons;
    if d.importPrevious.Some? && d.importCurrent.Some? {
      var importKwh := d.importCurrent.value - d.importPrevious.value;
      var exportKwh := 0;
      if d.exportPrevious.Some? && d.exportCurrent.Some? {
        exportKwh := d.exportCurrent.value - d.exportPrevious.value;
      }
      var computedNet := importKwh - exportKwh;
      assert computedNet == ComputedNet(d).value;
      if d.billedKwh.Some? && d.billedKwh.value != computedNet {
        reasons := reasons + [MismatchReason(d.billedKwh.value, computedNet)];
      }
    }
    assert reasons == meterReasons + (if HasMismatch(d) then [MismatchReason(d.billedKwh.value, ComputedNet(d).value)] else []);
    needsReview := |reasons| > 0;
  }

  /**
   * At most two reasons; the meter reason is there exactly when the meter was not found, and
   * then first; the mismatch reason is there exactly when there is a mismatch, and then last.
   */
  lemma ReviewReasonsOrder(d: ElectricityReadings, meterFound: bool)
    ensures |ReviewReasons(d, meterFound)| == (if meterFound then 0 else 1) + (if HasMismatch(d) then 1 else 0)
    ensures MeterNotFoundReason in ReviewReasons(d, meterFound) <==> !meterFound
    ensures !meterFound ==> ReviewReasons(d, meterFound)[0] == MeterNotFoundReason
    ensures HasMismatch(d) ==>
      ReviewReasons(d, meterFound)[|ReviewReasons(d, meterFound)| - 1] == MismatchReason(d.billedKwh.value, ComputedNet(d).value)
  {
    if HasMismatch(d) {
      MeterReasonIsNotMismatch(d.billedKwh.value, ComputedNet(d).value);
    }
  }

  /** Without both import readings there is no mismatch reason, whatever was billed. */
  lemma NoImportNoMismatch(d: ElectricityReadings, meterFound: bool)
    requires d.importPrevious.None? || d.importCurrent.None?
    ensures ReviewReasons(d, meterFound) == (if meterFound then [] else [MeterNotFoundReason])
  {
    assert !HasMismatch(d);
  }

  /** The two reasons are told apart by their first character. */
  lemma MeterReasonIsNotMismatch(billed: int, net: int)
    ensures MeterNotFoundReason != MismatchReason(billed, net)
  {
    assert MeterNotFoundReason[0] == 'M';
    assert MismatchReason(billed, net)[0] == 'B';
  }

  /** `str` of an int holds only digits and a sign, never a closing parenthesis. */
  lemma IntTextHasNoParen(i: int)
    ensures forall k :: 0 <= k < |IntToString(i)| ==> IntToString(i)[k] != ')'
  {
    var s := IntToString(i);
    forall k | 0 <= k < |s| ensures s[k] != ')' {
      if s[0] == '-' && k > 0 {
        assert s[k] == s[1..][k - 1];
      }
    }
  }

  /** The character `k` places after the head: from `x`, or the first of `rest` right after `x`. */
  lemma CharAfterHead(h: string, x: string, rest: string, k: int)
    ensures 0 <= k < |x| ==> (h + x + rest)[|h| + k] == x[k]
    ensures k == |x| && |rest| > 0 ==> (h + x + rest)[|h| + k] == rest[0]
  {
  }

  /**
   * Text without a closing parenthesis, after a common head and before a piece that starts
   * with one, is determined by the whole.
   */
  lemma CutAtParen(h: string, x: string, rest: string, x': string, rest': string)
    requires h + x + rest == h + x' + rest'
    requires |rest| > 0 && rest[0] == ')' && |rest'| > 0 && rest'[0] == ')'
    requires forall k :: 0 <= k < |x| ==> x[k] != ')'
    requires forall k :: 0 <= k < |x'| ==> x'[k] != ')'
    ensures x == x' && rest == rest'
  {
    var m := h + x + rest;
    var m' := h + x' + rest';
    if |x| < |x'| {
      CharAfterHead(h, x, rest, |x|);
      CharAfterHead(h, x', rest', |x|);
    } else if |x'| < |x| {
      CharAfterHead(h, x, rest, |x'|);
      CharAfterHead(h, x', rest', |x'|);
    }
    assert x == m[|h|..|h| + |x|] == x';
    assert rest == m[|h| + |x|..] == rest';
  }

  /** The mismatch reason names both numbers unambiguously: equal reasons come from equal figures. */
  lemma MismatchReasonDetermines(billed: int, net: int, billed': int, net': int)
    requires MismatchReason(billed, net) == MismatchReason(billed', net')
    ensures billed == billed' && net == net'
  {
    var head := "Billed kWh (";
    var middle := ") != computed net kWh (";
    var x, y := IntToString(billed), IntToString(net);
    var x', y' := IntToString(billed'), IntToString(net');
    IntTextHasNoParen(billed);
    IntTextHasNoParen(billed');
    var rest, rest' := middle + y + ")", middle + y' + ")";
    assert head + x + rest == MismatchReason(billed, net);
    assert head + x' + rest' == MismatchReason(billed', net');
    CutAtParen(head, x, rest, x', rest');
    assert y == rest[|middle|..|rest| - 1] == rest'[|middle|..|rest'| - 1] == y';
  }

  // ---- agreement with the stored bill ----

  /** The readings of a stored electricity bill as a form would carry them. */
  function ReadingsOfBill(b: ElectricityBill): ElectricityReadings {
    ElectricityReadings(Some(b.importPrevious), Some(b.importCurrent), b.exportPrevious, b.exportCurrent, b.billedKwh)
  }

  /**
   * The review's mismatch is the model's `billed_kwh_mismatch`: the same net energy, the same
   * verdict.
   */
  lemma ReviewAgreesWithBill(b: ElectricityBill)
    ensures ComputedNet(ReadingsOfBill(b)) == Some(NetKwh(b))
    ensures HasMismatch(ReadingsOfBill(b)) <==> BilledKwhMismatch(b)
  {
  }

  /** The form and the model accept exactly the same readings. */
  lemma FormCleanAgreesWithBill(b: ElectricityBill)
    ensures CleanElectricityForm(ReadingsOfBill(b)).Ok? <==> ReadingsOrdered(b)
  {
  }

  /** The water form and the water bill accept exactly the same readings. */
  lemma WaterFormAgreesWithBill(b: WaterBill)
    ensures CleanWaterForm(WaterReadings(Some(b.previousReading), Some(b.currentReading), b.billedM3)).Ok?
      <==> "current_reading" !in CleanWaterBill(b)
  {
  }
}
