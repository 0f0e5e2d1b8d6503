/**
 * utility_bills/services/classifiers.py: the layout heuristic that routes OCR text to a parser.
 * Two ordered rules test for fixed marker strings; the first rule that fires decides.
 */
module Classifiers {
  import opened Wrappers
  import opened Text
  import opened Normalizers

  /** `LayoutType`: the four labels the result type admits. */
  datatype LayoutType = ElectricitySummary | ElectricityDetailed | WaterUnknown | Unknown

  /** Markers of the detailed electricity bill: the export and import table rows, the meter-reading table. */
  const DetailedMarkers: seq<string> := ["المصدرة", "المستجرة", "قراءة عداد الطاقة"]

  /** Markers of the summary screenshot, English or Arabic. */
  const SummaryMarkers: seq<string> := ["Bill No", "Previous reading", "القراءة السابقة"]

  /** Some marker of `markers` occurs somewhere in `t`. */
  ghost predicate MentionsAny(t: string, markers: seq<string>) {
    exists k, i :: 0 <= k < |markers| && OccursAt(t, markers[k], i)
  }

  /** The `or` chain of `in` tests, left to right. */
  function ContainsAny(t: string, markers: seq<string>): (r: bool)
    ensures r <==> MentionsAny(t, markers)
  {
    if markers == [] then false
    else if Contains(t, markers[0]) then true
    else
      var r := ContainsAny(t, markers[1..]);
      assert MentionsAny(t, markers) ==> MentionsAny(t, markers[1..]) by {
        if MentionsAny(t, markers) {
          var k, i :| 0 <= k < |markers| && OccursAt(t, markers[k], i);
          assert k != 0;
          assert markers[1..][k - 1] == markers[k];
        }
      }
      assert MentionsAny(t, markers[1..]) ==> MentionsAny(t, markers) by {
        if MentionsAny(t, markers[1..]) {
          var k, i :| 0 <= k < |markers[1..]| && OccursAt(t, markers[1..][k], i);
          assert OccursAt(t, markers[k + 1], i);
        }
      }
      r
  }

  /**
   * `classify_layout`: detailed when a detailed marker occurs (whatever else occurs), summary
   * when only a summary marker occurs, unknown otherwise. `WaterUnknown` is never produced.
   */
  function ClassifyLayout(rawText: Option<string>): (r: LayoutType)
    ensures r == ElectricityDetailed <==> MentionsAny(OrEmpty(rawText), DetailedMarkers)
    ensures r == ElectricitySummary <==>
      !MentionsAny(OrEmpty(rawText), DetailedMarkers) && MentionsAny(OrEmpty(rawText), SummaryMarkers)
    ensures r == Unknown <==>
      !MentionsAny(OrEmpty(rawText), DetailedMarkers) && !MentionsAny(OrEmpty(rawText), SummaryMarkers)
    ensures r != WaterUnknown
  {
    var t := OrEmpty(rawText);
    if ContainsAny(t, DetailedMarkers) then ElectricityDetailed
    else if ContainsAny(t, SummaryMarkers) then ElectricitySummary
    else Unknown
  }

  /** Missing or empty text is `unknown`: no marker fits in the empty string. */
  lemma EmptyIsUnknown(rawText: Option<string>)
    requires rawText.None? || rawText == Some("")
    ensures ClassifyLayout(rawText) == Unknown
  {
    assert OrEmpty(rawText) == "";
    assert !MentionsAny("", DetailedMarkers) by {
      forall k, i | 0 <= k < |DetailedMarkers| ensures !OccursAt("", DetailedMarkers[k], i) {
        assert |DetailedMarkers[k]| > 0;
      }
    }
    assert !MentionsAny("", SummaryMarkers) by {
      forall k, i | 0 <= k < |SummaryMarkers| ensures !OccursAt("", SummaryMarkers[k], i) {
        assert |SummaryMarkers[k]| > 0;
      }
    }
  }

  /** Containment survives adding text around it, so a detailed bill stays detailed. */
  lemma {:induction false} DetailedSurvivesMoreText(t: string, before: string, after: string)
    requires ClassifyLayout(Some(t)) == ElectricityDetailed
    ensures ClassifyLayout(Some(before + t + after)) == ElectricityDetailed
  {
    var k, i :| 0 <= k < |DetailedMarkers| && OccursAt(t, DetailedMarkers[k], i);
    var m := DetailedMarkers[k];
    var u := before + t + after;
    assert u[|before| + i..|before| + i + |m|] == t[i..i + |m|];
    assert OccursAt(u, m, |before| + i);
  }

  /** No character of `m` is a digit of either script. */
  predicate DigitFree(m: string) {
    forall j :: 0 <= j < |m| ==> !IsDigit(m[j]) && !IsArabicIndicDigit(m[j])
  }

  /** A digit-free marker occurs in normalised text exactly where it occurs in the original. */
  lemma OccursAfterNormalizing(t: string, m: string, i: int)
    requires DigitFree(m)
    ensures OccursAt(NormalizeDigits(Some(t)), m, i) <==> OccursAt(t, m, i)
  {
    var n := NormalizeDigits(Some(t));
    if 0 <= i && i + |m| <= |t| {
      if n[i..i + |m|] == m {
        forall j | 0 <= j < |m| ensures t[i + j] == m[j] {
          assert n[i + j] == m[j];
          assert DigitNormalized(t[i + j], n[i + j]);
        }
        assert t[i..i + |m|] == m;
      }
      if t[i..i + |m|] == m {
        forall j | 0 <= j < |m| ensures n[i + j] == m[j] {
          assert t[i + j] == m[j];
          assert DigitNormalized(t[i + j], n[i + j]);
        }
        assert n[i..i + |m|] == m;
      }
    }
  }

  lemma MentionsAfterNormalizing(t: string, markers: seq<string>)
    requires forall k :: 0 <= k < |markers| ==> DigitFree(markers[k])
    ensures MentionsAny(NormalizeDigits(Some(t)), markers) <==> MentionsAny(t, markers)
  {
    forall k, i | 0 <= k < |markers|
      ensures OccursAt(NormalizeDigits(Some(t)), markers[k], i) <==> OccursAt(t, markers[k], i)
    {
      OccursAfterNormalizing(t, markers[k], i);
    }
  }

  /** The markers contain no digits, so classifying before or after digit normalisation agrees. */
  lemma ClassifyIgnoresDigitScript(t: string)
    ensures ClassifyLayout(Some(NormalizeDigits(Some(t)))) == ClassifyLayout(Some(t))
  {
    assert forall k :: 0 <= k < |DetailedMarkers| ==> DigitFree(DetailedMarkers[k]);
    assert forall k :: 0 <= k < |SummaryMarkers| ==> DigitFree(SummaryMarkers[k]);
    MentionsAfterNormalizing(t, DetailedMarkers);
    MentionsAfterNormalizing(t, SummaryMarkers);
  }
}
