/**
 * utility_bills/models.py: the consistency rules of the stored bills. A bill's `clean` reports
 * its problems as a map from field name to message (the payload of the `ValidationError` it
 * raises); an empty map means `clean` returns normally.
 */
module Models {
  import opened Wrappers

  /** `UtilityType` values as stored in the `utility_type` columns. */
  const Electricity: string := "electricity"
  const Water: string := "water"

  /** The payload of a `ValidationError` raised with a dict: field name to message. */
  type Errors = map<string, string>

  // ---- UtilityBill ----

  datatype UtilityMeter = UtilityMeter(utilityType: string, meterNumber: string)

  /**
   * The parts of a bill its `clean` looks at. `meterId` is the foreign-key column, `None`
   * when the bill has no meter yet; `meter` is the row it refers to.
   */
  datatype UtilityBill = UtilityBill(meterId: Option<int>, meter: UtilityMeter, utilityType: string)

  const UtilityTypeMismatch: string := "UtilityBill.utility_type must match UtilityMeter.utility_type"

  /**
   * `UtilityBill.clean`: a bill that names a meter (a non-zero id) and has a non-empty utility
   * type must have the same utility type as that meter; otherwise the error is reported on
   * `utility_type`.
   */
  function CleanUtilityBill(b: UtilityBill): (errors: Errors)
    ensures errors.Keys <= {"utility_type"}
    ensures "utility_type" in errors ==> errors["utility_type"] == UtilityTypeMismatch
    ensures "utility_type" in errors <==>
      b.meterId.Some? && b.meterId.value != 0 && b.utilityType != "" && b.meter.utilityType != b.utilityType
  {
    if b.meterId.Some? && b.meterId.value != 0 && b.utilityType != "" && b.meter.utilityType != b.utilityType then
      map["utility_type" := UtilityTypeMismatch]
    else
      map[]
  }

  /** A bill on a meter of its own utility type always passes; one on a meter of another type never does. */
  lemma UtilityTypeMustAgree(b: UtilityBill)
    requires b.meterId.Some? && b.meterId.value != 0 && b.utilityType != ""
    ensures "utility_type" !in CleanUtilityBill(b) <==> b.meter.utilityType == b.utilityType
  {
  }

  // ---- ElectricityBill ----

  /** The readings of an electricity bill; the import readings are required columns, the rest nullable. */
  datatype ElectricityBill = ElectricityBill(
    importPrevious: int,
    importCurrent: int,
    exportPrevious: Option<int>,
    exportCurrent: Option<int>,
    billedKwh: Option<int>)

  const ImportOrderMessage: string := "Import current reading must be >= import previous reading."
  const ExportOrderMessage: string := "Export current reading must be >= export previous reading."

  /** `import_kwh`: what the meter advanced by on the import register. */
  function ImportKwh(b: ElectricityBill): (r: int)
    ensures b.importPrevious + r == b.importCurrent
  {
    b.importCurrent - b.importPrevious
  }

  /** `export_kwh`: the export register's advance, or 0 when either export reading is missing. */
  function ExportKwh(b: ElectricityBill): (r: int)
    ensures b.exportPrevious.None? || b.exportCurrent.None? ==> r == 0
    ensures b.exportPrevious.Some? && b.exportCurrent.Some? ==> b.exportPrevious.value + r == b.exportCurrent.value
  {
    if b.exportCurrent.None? || b.exportPrevious.None? then 0
    else b.exportCurrent.value - b.exportPrevious.value
  }

  /** `net_kwh`: energy drawn minus energy fed back. */
  function NetKwh(b: ElectricityBill): (r: int)
    ensures r + ExportKwh(b) == ImportKwh(b)
  {
    ImportKwh(b) - ExportKwh(b)
  }

  /** `billed_kwh_mismatch`: never when nothing was billed, otherwise whenever the bill disagrees with the meter. */
  function BilledKwhMismatch(b: ElectricityBill): (r: bool)
    ensures b.billedKwh.None? ==> !r
    ensures r <==> b.billedKwh.Some? && b.billedKwh.value + ExportKwh(b) != ImportKwh(b)
  {
    b.billedKwh.Some? && b.billedKwh.value != NetKwh(b)
  }

  /** The readings never run backwards: import always, export when both of its readings are known. */
  predicate ReadingsOrdered(b: ElectricityBill) {
    b.importPrevious <= b.importCurrent &&
    (b.exportPrevious.None? || b.exportCurrent.None? || b.exportPrevious.value <= b.exportCurrent.value)
  }

  /**
   * `ElectricityBill.clean`: collects an error for each register that ran backwards (import
   * always checked, export only with both readings), so both are reported together.
   */
  method CleanElectricityBill(b: ElectricityBill) returns (errors: Errors)
    ensures "import_current" in errors <==> b.importCurrent < b.importPrevious
    ensures "export_current" in errors <==>
      b.exportCurrent.Some? && b.exportPrevious.Some? && b.exportCurrent.value < b.exportPrevious.value
    ensures errors.Keys <= {"import_current", "export_current"}
    ensures "import_current" in errors ==> errors["import_current"] == ImportOrderMessage
    ensures "export_current" in errors ==> errors["export_current"] == ExportOrderMessage
    ensures errors == map[] <==> ReadingsOrdered(b)
  {
    errors := map[];
    if b.importCurrent < b.importPrevious {
      errors := errors["import_current" := ImportOrderMessage];
    }
    if b.exportCurrent.Some? && b.exportPrevious.Some? {
      if b.exportCurrent.value < b.exportPrevious.value {
        errors := errors["export_current" := ExportOrderMessage];
      }
    }
    if errors == map[] {
      assert "import_current" !in errors;
    } else {
      assert "import_current" in errors || "export_current" in errors;
    }
  }

  /** A bill that `clean` accepts has non-negative import and export energy, and a net no larger than its import. */
  lemma AcceptedBillEnergyNonNegative(b: ElectricityBill)
    requires ReadingsOrdered(b)
    ensures ImportKwh(b) >= 0 && ExportKwh(b) >= 0
    ensures NetKwh(b) <= ImportKwh(b)
  {
  }

  /** Without export readings the net energy is the import energy, and a mismatch compares the bill with that alone. */
  lemma NoExportNetIsImport(b: ElectricityBill)
    requires b.exportPrevious.None? || b.exportCurrent.None?
    ensures NetKwh(b) == b.importCurrent - b.importPrevious
    ensures BilledKwhMismatch(b) <==> b.billedKwh.Some? && b.billedKwh.value != b.importCurrent - b.importPrevious
  {
  }

  // ---- WaterBill ----

  datatype WaterBill = WaterBill(previousReading: int, currentReading: int, billedM3: Option<int>)

  const WaterOrderMessage: string := "Current reading must be >= previous reading."

  /** `consumption_m3`: what the meter advanced by. */
  function ConsumptionM3(b: WaterBill): (r: int)
    ensures b.previousReading + r == b.currentReading
  {
    b.currentReading - b.previousReading
  }

  /** `WaterBill.clean`: a meter that ran backwards is reported on `current_reading`. */
  function CleanWaterBill(b: WaterBill): (errors: Errors)
    ensures errors.Keys <= {"current_reading"}
    ensures "current_reading" in errors ==> errors["current_reading"] == WaterOrderMessage
    ensures "current_reading" !in errors <==> b.previousReading <= b.currentReading
  {
    if b.currentReading < b.previousReading then map["current_reading" := WaterOrderMessage] else map[]
  }

  /** `clean` rejects exactly the bills whose consumption would be negative. */
  lemma WaterCleanRejectsNegativeConsumption(b: WaterBill)
    ensures "current_reading" !in CleanWaterBill(b) <==> ConsumptionM3(b) >= 0
  {
  }
}
