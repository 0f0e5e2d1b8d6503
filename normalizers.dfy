/**
 * utility_bills/services/normalizers.py: the digit normaliser applied to OCR text before any
 * matching, and the total "maybe decimal" parser used for money captures.
 */
module Normalizers {
  import opened Wrappers
  import opened Text

  /** The translation table's two sides: U+0660..U+0669 map position by position onto ASCII. */
  const ArabicDigits: string := "٠١٢٣٤٥٦٧٨٩"
  const WesternDigits: string := "0123456789"

  predicate IsArabicIndicDigit(c: char) {
    '\U{0660}' <= c <= '\U{0669}'
  }

  predicate NoArabicIndicDigits(s: string) {
    forall i :: 0 <= i < |s| ==> !IsArabicIndicDigit(s[i])
  }

  /** Python's `text or ""`: a missing or empty text is the empty string. */
  function OrEmpty(text: Option<string>): string {
    if text.Some? then text.value else ""
  }

  /** One character through the table `str.maketrans(from, to)`. */
  function TranslateChar(c: char, from: string, to: string): char
    requires |from| == |to|
  {
    if from == [] then c
    else if c == from[0] then to[0]
    else TranslateChar(c, from[1..], to[1..])
  }

  lemma {:induction false} TranslateCharAt(c: char, from: string, to: string, k: nat)
    requires |from| == |to| && k < |from| && from[k] == c
    requires forall j :: 0 <= j < k ==> from[j] != c
    ensures TranslateChar(c, from, to) == to[k]
  {
    if k > 0 {
      TranslateCharAt(c, from[1..], to[1..], k - 1);
    }
  }

  lemma {:induction false} TranslateCharMissing(c: char, from: string, to: string)
    requires |from| == |to| && c !in from
    ensures TranslateChar(c, from, to) == c
  {
    if from != [] {
      TranslateCharMissing(c, from[1..], to[1..]);
    }
  }

  function NormalizeChar(c: char): char {
    TranslateChar(c, ArabicDigits, WesternDigits)
  }

  /** The table sends the k-th Arabic-Indic digit U+0660+k to the ASCII digit '0'+k, and nothing else moves. */
  lemma NormalizeCharMeaning(c: char)
    ensures IsArabicIndicDigit(c) ==> NormalizeChar(c) == DigitChar(c as int - 0x660)
    ensures !IsArabicIndicDigit(c) ==> NormalizeChar(c) == c
  {
    assert forall j :: 0 <= j < 10 ==> ArabicDigits[j] as int == 0x660 + j;
    assert forall j :: 0 <= j < 10 ==> WesternDigits[j] == DigitChar(j);
    if IsArabicIndicDigit(c) {
      TranslateCharAt(c, ArabicDigits, WesternDigits, c as int - 0x660);
    } else {
      TranslateCharMissing(c, ArabicDigits, WesternDigits);
    }
  }

  /** What normalisation does to one character: the k-th Arabic-Indic digit becomes '0'+k, others stay. */
  predicate DigitNormalized(c: char, d: char) {
    if IsArabicIndicDigit(c) then d == DigitChar(c as int - 0x660) else d == c
  }

  /** `s.translate(_DIGIT_TRANS)`. */
  function TranslateDigits(s: string): (r: string)
    ensures |r| == |s|
    ensures forall i :: 0 <= i < |s| ==> DigitNormalized(s[i], r[i])
  {
    if s == [] then []
    else
      NormalizeCharMeaning(s[0]);
      [NormalizeChar(s[0])] + TranslateDigits(s[1..])
  }

  /** `normalize_digits`: Arabic-Indic digits become ASCII digits, everything else is kept. */
  function NormalizeDigits(text: Option<string>): (r: string)
    ensures |r| == |OrEmpty(text)|
    ensures forall i :: 0 <= i < |r| ==> DigitNormalized(OrEmpty(text)[i], r[i])
    ensures NoArabicIndicDigits(r)
  {
    TranslateDigits(OrEmpty(text))
  }

  /** Text without Arabic-Indic digits comes back unchanged. */
  lemma NormalizeDigitsIdentity(s: string)
    requires NoArabicIndicDigits(s)
    ensures NormalizeDigits(Some(s)) == s
  {
  }

  /** Normalising twice is normalising once. */
  lemma NormalizeDigitsIdempotent(text: Option<string>)
    ensures NormalizeDigits(Some(NormalizeDigits(text))) == NormalizeDigits(text)
  {
    NormalizeDigitsIdentity(NormalizeDigits(text));
  }

  /** The k-th entry of the Arabic-Indic table is U+0660+k and becomes the ASCII digit k. */
  lemma ArabicDigitTable(k: nat)
    requires k < 10
    ensures ArabicDigits[k] as int == 0x660 + k
    ensures NormalizeDigits(Some([ArabicDigits[k]])) == [DigitChar(k)]
  {
    assert forall j :: 0 <= j < 10 ==> ArabicDigits[j] as int == 0x660 + j;
  }

  // ---- parse_decimal_maybe ----

  /**
   * An exact decimal as Python's `Decimal` stores it: an integer coefficient and a number of
   * fractional digits, so `Decimal(c, k)` is the value c / 10^k ("1.50" is Decimal(150, 2)).
   * Equality of the datatype is equality of representations; `SameValue` is `Decimal`'s `==`.
   */
  datatype Decimal = Decimal(coefficient: int, scale: nat)

  /** `Decimal.__eq__`: the same number whatever the exponents ("12.500" equals "12.5"). */
  predicate SameValue(x: Decimal, y: Decimal) {
    x.coefficient * Pow10(y.scale) == y.coefficient * Pow10(x.scale)
  }

  /** `n` with the sign `Decimal` reads from the first character of `s`. */
  function Signed(s: string, n: int): int {
    if |s| > 0 && s[0] == '-' then -n else n
  }

  /** The text after an optional leading sign. */
  function Unsigned(s: string): string {
    if |s| > 0 && (s[0] == '-' || s[0] == '+') then s[1..] else s
  }

  /** How many digits `s` starts with. */
  function LeadingDigits(s: string): (k: nat)
    ensures k <= |s| && AllDigits(s[..k]) && (k == |s| || !IsDigit(s[k]))
  {
    if s == [] || !IsDigit(s[0]) then 0
    else
      var k := LeadingDigits(s[1..]) + 1;
      assert s[..k] == [s[0]] + s[1..][..k - 1];
      k
  }

  /**
   * The unsigned decimal syntax `Decimal` accepts, restricted to digits and points: only
   * digits and at most one point, with at least one digit somewhere.
   */
  predicate DecimalSyntax(b: string) {
    && (forall i :: 0 <= i < |b| ==> IsDigit(b[i]) || b[i] == '.')
    && (forall i, j :: 0 <= i < j < |b| && b[i] == '.' ==> b[j] != '.')
    && (exists i :: 0 <= i < |b| && IsDigit(b[i]))
  }

  /** `b` with its points taken out: all the digits, in order. */
  function DigitsOnly(b: string): string {
    if b == [] then [] else (if b[0] == '.' then [] else [b[0]]) + DigitsOnly(b[1..])
  }

  /** How many characters follow the first point (0 without a point). */
  function FractionLength(b: string): nat {
    if b == [] then 0 else if b[0] == '.' then |b| - 1 else FractionLength(b[1..])
  }

  lemma {:induction false} DigitsOnlyOfDigits(a: string)
    requires AllDigits(a)
    ensures DigitsOnly(a) == a && FractionLength(a) == 0
  {
    if a != [] {
      DigitsOnlyOfDigits(a[1..]);
      assert a == [a[0]] + a[1..];
    }
  }

  lemma {:induction false} DigitsOnlySplit(a: string, f: string)
    requires AllDigits(a) && AllDigits(f)
    ensures DigitsOnly(a + "." + f) == a + f
    ensures FractionLength(a + "." + f) == |f|
  {
    if a == [] {
      assert a + "." + f == "." + f;
      assert ("." + f)[1..] == f;
      DigitsOnlyOfDigits(f);
    } else {
      assert (a + "." + f)[1..] == a[1..] + "." + f;
      DigitsOnlySplit(a[1..], f);
      assert a == [a[0]] + a[1..];
    }
  }

  lemma AllDigitsConcat(a: string, f: string)
    requires AllDigits(a) && AllDigits(f)
    ensures AllDigits(a + f)
  {
  }

  lemma DecimalSyntaxOfDigits(b: string)
    requires AllDigits(b) && |b| > 0
    ensures DecimalSyntax(b)
  {
    assert IsDigit(b[0]);
  }

  lemma DecimalSyntaxOfPoint(a: string, f: string)
    requires AllDigits(a) && AllDigits(f) && (|a| > 0 || |f| > 0)
    ensures DecimalSyntax(a + "." + f)
  {
    var b := a + "." + f;
    var k := |a|;
    forall i | 0 <= i < |b| && i != k ensures IsDigit(b[i]) {
      if i < k { assert b[i] == a[i]; } else { assert b[i] == f[i - k - 1]; }
    }
    if k > 0 { assert IsDigit(b[0]); } else { assert IsDigit(b[1]); }
  }

  /** Where the leading digits of `b` stop at a point, `b` is decimal syntax only if the rest is digits. */
  lemma NotDecimalSyntaxAfterPoint(b: string, k: nat)
    requires k < |b| && b[k] == '.' && AllDigits(b[..k])
    requires !AllDigits(b[k + 1..]) || (k == 0 && |b| == 1)
    ensures !DecimalSyntax(b)
  {
    if !AllDigits(b[k + 1..]) {
      var j :| 0 <= j < |b[k + 1..]| && !IsDigit(b[k + 1..][j]);
      assert b[k + 1 + j] == b[k + 1..][j];
    } else {
      assert b == ".";
    }
  }

  /** The unsigned part of a decimal literal: digits, optionally a point and more digits. */
  function UnsignedDecimal(b: string): (r: Option<Decimal>)
    ensures r.Some? <==> DecimalSyntax(b)
    ensures r.Some? ==> AllDigits(DigitsOnly(b))
    ensures r.Some? ==> r.value == Decimal(DigitsValue(DigitsOnly(b)), FractionLength(b))
  {
    var k := LeadingDigits(b);
    if k == |b| then
      if k == 0 then None
      else
        assert b[..k] == b;
        DecimalSyntaxOfDigits(b);
        DigitsOnlyOfDigits(b);
        Some(Decimal(DigitsValue(b), 0))
    else if b[k] != '.' then
      assert !(IsDigit(b[k]) || b[k] == '.');
      None
    else if !AllDigits(b[k + 1..]) || (k == 0 && k + 1 == |b|) then
      NotDecimalSyntaxAfterPoint(b, k);
      None
    else
      var a, f := b[..k], b[k + 1..];
      assert b == a + "." + f;
      DigitsOnlySplit(a, f);
      DecimalSyntaxOfPoint(a, f);
      AllDigitsConcat(a, f);
      Some(Decimal(DigitsValue(a + f), |f|))
  }

  /**
   * `Decimal(s)` on text already stripped of surrounding whitespace, for the syntax the
   * extractor's captures can have (sign, digits, one point); anything else raises, which the
   * caller turns into `None`. The coefficient is all the digits read as one integer, the scale
   * the number of digits after the point.
   */
  function DecimalLiteral(s: string): (r: Option<Decimal>)
    ensures r.Some? <==> DecimalSyntax(Unsigned(s))
    ensures r.Some? ==> AllDigits(DigitsOnly(Unsigned(s)))
    ensures r.Some? ==>
      r.value == Decimal(Signed(s, DigitsValue(DigitsOnly(Unsigned(s)))), FractionLength(Unsigned(s)))
  {
    match UnsignedDecimal(Unsigned(s))
    case None => None
    case Some(d) => Some(Decimal(Signed(s, d.coefficient), d.scale))
  }

  /**
   * `parse_decimal_maybe`: `None` for `None`, for text that is empty once trimmed and rid of
   * commas, and for text `Decimal` rejects; otherwise the exact value.
   */
  function ParseDecimalMaybe(value: Option<string>): (r: Option<Decimal>)
    ensures value.None? ==> r.None?
    ensures value.Some? && RemoveCommas(Strip(value.value)) == "" ==> r.None?
    ensures value.Some? ==> r == DecimalLiteral(Strip(RemoveCommas(value.value)))
  {
    if value.None? then None
    else
      var v := RemoveCommas(Strip(value.value));
      StripAfterRemovingCommas(value.value);
      if v == "" then None else DecimalLiteral(Strip(v))
  }

  /** Commas are ignored anywhere: "1,234.5" parses like "1234.5". */
  lemma CommasIgnored(s: string)
    ensures ParseDecimalMaybe(Some(s)) == ParseDecimalMaybe(Some(RemoveCommas(s)))
  {
    assert RemoveCommas(RemoveCommas(s)) == RemoveCommas(s);
  }

  /** Text without whitespace or commas goes to `Decimal` as it is. */
  lemma PlainDecimalText(s: string)
    requires forall i :: 0 <= i < |s| ==> !IsSpace(s[i]) && s[i] != ','
    ensures ParseDecimalMaybe(Some(s)) == DecimalLiteral(s)
  {
    assert RemoveCommas(s) == s;
    assert TrimStart(s) == s;
    assert TrimEnd(s) == s;
  }

  /** Points without digits are not a number: `parse_decimal_maybe(".")` is `None`. */
  lemma LonePointIsNone(s: string)
    requires forall i :: 0 <= i < |s| ==> s[i] == '.'
    ensures ParseDecimalMaybe(Some(s)) == None
  {
    assert Unsigned(s) == s;
    assert !DecimalSyntax(s);
    NotDecimalIsNone(s);
  }

  /** A lone sign is not a number: `parse_decimal_maybe("-")` is `None`. */
  lemma LoneSignIsNone(c: char)
    requires c == '-' || c == '+'
    ensures ParseDecimalMaybe(Some([c])) == None
  {
    assert Unsigned([c]) == [];
    NotDecimalIsNone([c]);
  }

  /** Text without whitespace or commas that is not decimal syntax parses to `None`. */
  lemma NotDecimalIsNone(s: string)
    requires forall i :: 0 <= i < |s| ==> !IsSpace(s[i]) && s[i] != ','
    requires !DecimalSyntax(Unsigned(s))
    ensures ParseDecimalMaybe(Some(s)) == None
  {
    PlainDecimalText(s);
  }

  /** A sign inside the digits is rejected, not read as a subtraction: "1-2" is `None`. */
  lemma InnerSignIsNone(a: string, b: string)
    requires |a| > 0 && AllDigits(a) && AllDigits(b)
    ensures ParseDecimalMaybe(Some(a + "-" + b)) == None
  {
    var s := a + "-" + b;
    assert forall i :: 0 <= i < |s| ==> !IsSpace(s[i]) && s[i] != ',' by {
      forall i | 0 <= i < |s| ensures !IsSpace(s[i]) && s[i] != ',' {
        if i < |a| { assert s[i] == a[i]; } else if i > |a| { assert s[i] == b[i - |a| - 1]; }
      }
    }
    assert !DecimalSyntax(Unsigned(s)) by {
      assert s[0] == a[0];
      assert Unsigned(s) == s;
      assert s[|a|] == '-';
    }
    NotDecimalIsNone(s);
  }

  /** Two points are rejected: "1.2.3" is `None`. */
  lemma TwoPointsIsNone(a: string, b: string, c: string)
    requires AllDigits(a) && AllDigits(b) && AllDigits(c)
    ensures ParseDecimalMaybe(Some(a + "." + b + "." + c)) == None
  {
    var s := a + "." + b + "." + c;
    var k := |a| + 1 + |b|;
    assert forall i :: 0 <= i < |s| ==> !IsSpace(s[i]) && s[i] != ',' by {
      forall i | 0 <= i < |s| ensures !IsSpace(s[i]) && s[i] != ',' {
        if i < |a| { assert s[i] == a[i]; }
        else if |a| < i < k { assert s[i] == b[i - |a| - 1]; }
        else if i > k { assert s[i] == c[i - k - 1]; }
      }
    }
    assert !DecimalSyntax(Unsigned(s)) by {
      assert s[0] != '-' && s[0] != '+' by {
        if |a| > 0 { assert s[0] == a[0]; }
      }
      assert Unsigned(s) == s;
      assert s[|a|] == '.' && s[k] == '.';
    }
    NotDecimalIsNone(s);
  }

  /** Digits, a point and digits, optionally after a minus sign, hold no whitespace and no comma. */
  lemma PointTextIsPlain(sign: string, a: string, f: string)
    requires sign == "" || sign == "-"
    requires AllDigits(a) && AllDigits(f)
    ensures forall i :: 0 <= i < |sign + (a + "." + f)| ==>
      !IsSpace((sign + (a + "." + f))[i]) && (sign + (a + "." + f))[i] != ','
  {
    var b := sign + (a + "." + f);
    var k := |sign|;
    forall i | 0 <= i < |b| ensures !IsSpace(b[i]) && b[i] != ',' {
      if k <= i < k + |a| { assert b[i] == a[i - k]; } else if i > k + |a| { assert b[i] == f[i - k - |a| - 1]; }
    }
  }

  /** The unsigned syntax of digits, a point and digits. */
  lemma UnsignedPoint(a: string, f: string)
    requires AllDigits(a) && AllDigits(f) && |a| > 0
    ensures AllDigits(a + f)
    ensures UnsignedDecimal(a + "." + f) == Some(Decimal(DigitsValue(a + f), |f|))
  {
    AllDigitsConcat(a, f);
    DigitsOnlySplit(a, f);
    DecimalSyntaxOfPoint(a, f);
  }

  /** Digits, a point and digits read as all the digits over ten to the number after the point. */
  lemma PointNumber(a: string, f: string)
    requires AllDigits(a) && AllDigits(f) && |a| > 0
    ensures AllDigits(a + f)
    ensures ParseDecimalMaybe(Some(a + "." + f)) == Some(Decimal(DigitsValue(a + f), |f|))
  {
    PointNumberIsPlain(a, f);
    PointNumberLiteral(a, f);
  }

  lemma PointNumberIsPlain(a: string, f: string)
    requires AllDigits(a) && AllDigits(f) && |a| > 0
    ensures ParseDecimalMaybe(Some(a + "." + f)) == DecimalLiteral(a + "." + f)
  {
    var u := a + "." + f;
    PointTextIsPlain("", a, f);
    assert "" + u == u;
    PlainDecimalText(u);
  }

  lemma PointNumberLiteral(a: string, f: string)
    requires AllDigits(a) && AllDigits(f) && |a| > 0
    ensures AllDigits(a + f)
    ensures DecimalLiteral(a + "." + f) == Some(Decimal(DigitsValue(a + f), |f|))
  {
    var u := a + "." + f;
    AllDigitsConcat(a, f);
    assert IsDigit(a[0]);
    assert u[0] == a[0];
    assert Unsigned(u) == u;
    UnsignedPoint(a, f);
  }

  lemma NegativePointLiteral(a: string, f: string, b: string)
    requires AllDigits(a) && AllDigits(f) && |a| > 0
    requires b == "-" + (a + "." + f)
    ensures AllDigits(a + f)
    ensures DecimalLiteral(b) == Some(Decimal(-(DigitsValue(a + f) as int), |f|))
  {
    var u := a + "." + f;
    AllDigitsConcat(a, f);
    assert b[0] == '-' && b[1..] == u;
    assert Unsigned(b) == u;
    UnsignedPoint(a, f);
    assert Signed(b, DigitsValue(a + f)) == -(DigitsValue(a + f) as int);
  }

  /** With a leading minus sign the whole number is negated. */
  lemma SignedPointNumber(a: string, f: string, b: string)
    requires AllDigits(a) && AllDigits(f) && |a| > 0
    requires b == "-" + (a + "." + f)
    ensures AllDigits(a + f)
    ensures ParseDecimalMaybe(Some(b)) == Some(Decimal(-(DigitsValue(a + f) as int), |f|))
  {
    PointTextIsPlain("-", a, f);
    PlainDecimalText(b);
    NegativePointLiteral(a, f, b);
  }

  /** A thousands separator is ignored: "1,234.5" reads like "1234.5". */
  lemma ThousandsSeparator(a: string, b: string)
    requires ',' !in a && ',' !in b
    ensures ParseDecimalMaybe(Some(a + "," + b)) == ParseDecimalMaybe(Some(a + b))
  {
    SeparatorRemoved(a, b);
    CommasIgnored(a + "," + b);
  }

  lemma SeparatorRemoved(a: string, b: string)
    requires ',' !in a && ',' !in b
    ensures RemoveCommas(a + "," + b) == a + b
  {
    var c := a + ",";
    RemoveCommasAppend(c, b);
    RemoveCommasAppend(a, ",");
    assert RemoveCommas(c) == a by {
      assert RemoveCommas(",") == [];
      assert RemoveCommas(a) == a;
    }
  }
}
