/**
 * The handful of Python string built-ins the bill pipeline relies on, on `string = seq<char>`:
 * `str.isspace` (also what `\s` matches), ASCII `\d`, `int()` of a digit run, `str()` of an
 * integer (used in f-strings), `str.strip`, `str.replace(",", "")` and the `in` operator.
 */
module Text {

  /** Python's `str.isspace()`; in a `str` pattern `\s` matches exactly these characters. */
  predicate IsSpace(c: char) {
    c == ' ' || ('\t' <= c <= '\r') || ('\U{1C}' <= c <= '\U{1F}') || c == '\U{85}' || c == '\U{A0}'
    || c == '\U{1680}' || ('\U{2000}' <= c <= '\U{200A}') || c == '\U{2028}' || c == '\U{2029}'
    || c == '\U{202F}' || c == '\U{205F}' || c == '\U{3000}'
  }

  /** An ASCII digit; the model's `\d` (see README for the Unicode digits it leaves out). */
  predicate IsDigit(c: char) {
    '0' <= c <= '9'
  }

  predicate AllDigits(s: string) {
    forall i :: 0 <= i < |s| ==> IsDigit(s[i])
  }

  predicate AllSpace(s: string) {
    forall i :: 0 <= i < |s| ==> IsSpace(s[i])
  }

  function DigitValue(c: char): nat
    requires IsDigit(c)
  {
    c as int - '0' as int
  }

  function DigitChar(d: nat): (c: char)
    requires d < 10
    ensures IsDigit(c) && DigitValue(c) == d
  {
    ('0' as int + d) as char
  }

  /** Python `int(s)` for a string of ASCII digits (leading zeros allowed). */
  function DigitsValue(s: string): nat
    requires AllDigits(s)
  {
    if s == [] then 0 else DigitsValue(s[..|s| - 1]) * 10 + DigitValue(s[|s| - 1])
  }

  function Pow10(n: nat): (r: nat)
    ensures r > 0
  {
    if n == 0 then 1 else 10 * Pow10(n - 1)
  }

  /** Reading `a` then `f` as one digit string shifts `a` left by the length of `f`. */
  lemma {:induction false} DigitsValueAppend(a: string, f: string)
    requires AllDigits(a) && AllDigits(f)
    ensures AllDigits(a + f)
    ensures DigitsValue(a + f) == DigitsValue(a) * Pow10(|f|) + DigitsValue(f)
    decreases |f|
  {
    var u := a + f;
    assert forall i :: 0 <= i < |u| ==> u[i] == (if i < |a| then a[i] else f[i - |a|]);
    if f != [] {
      var f' := f[..|f| - 1];
      assert u[..|u| - 1] == a + f';
      DigitsValueAppend(a, f');
      var x, p, y, d := DigitsValue(a), Pow10(|f'|), DigitsValue(f'), DigitValue(f[|f| - 1]);
      assert DigitsValue(u) == (x * p + y) * 10 + d;
      assert DigitsValue(f) == y * 10 + d;
      assert Pow10(|f|) == 10 * p;
      ShiftDigit(x, p, y, d);
    } else {
      assert u == a;
    }
  }

  lemma ShiftDigit(x: int, p: int, y: int, d: int)
    ensures (x * p + y) * 10 + d == x * (10 * p) + (y * 10 + d)
  {
  }

  /** The text a `-?\d+` group captures: an optional minus sign and at least one digit. */
  predicate SignedDigitText(s: string) {
    if |s| > 0 && s[0] == '-' then |s| > 1 && AllDigits(s[1..]) else |s| > 0 && AllDigits(s)
  }

  /** Python `int(s)` for a `-?\d+` capture. */
  function SignedValue(s: string): int
    requires SignedDigitText(s)
  {
    if s[0] == '-' then -(DigitsValue(s[1..]) as int) else DigitsValue(s)
  }

  /** Python `str(n)` for `n >= 0`: canonical decimal digits, which `int()` reads back as `n`. */
  function NatToString(n: nat): (s: string)
    ensures |s| > 0 && AllDigits(s)
    ensures DigitsValue(s) == n
    ensures |s| > 1 ==> s[0] != '0'
    ensures n > 0 ==> s[0] != '0'
  {
    if n < 10 then [DigitChar(n)]
    else
      var prefix := NatToString(n / 10);
      var s := prefix + [DigitChar(n % 10)];
      assert s[..|s| - 1] == prefix;
      s
  }

  /**
   * Python `str(i)`, as an f-string renders an `int`: a minus sign exactly for negative numbers,
   * then digits without a leading zero (so neither "07" nor "-0" is ever produced).
   */
  function IntToString(i: int): (s: string)
    ensures SignedDigitText(s) && SignedValue(s) == i
    ensures s[0] == '-' <==> i < 0
    ensures s[0] == '-' ==> s[1] != '0'
    ensures s[0] != '-' ==> |s| == 1 || s[0] != '0'
  {
    if i < 0 then
      var digits := NatToString(-i);
      assert ("-" + digits)[1..] == digits;
      "-" + digits
    else NatToString(i)
  }

  /** `m` occurs in `t` starting at index `i`. */
  predicate OccursAt(t: string, m: string, i: int) {
    0 <= i && i + |m| <= |t| && t[i..i + |m|] == m
  }

  /** Python's `m in t`: plain, case-sensitive substring containment. */
  function Contains(t: string, m: string): (r: bool)
    ensures r <==> exists i :: OccursAt(t, m, i)
    decreases |t|
  {
    if m <= t then
      assert OccursAt(t, m, 0);
      true
    else if t == [] then
      false
    else
      OccurrenceAfterFirst(t, m);
      Contains(t[1..], m)
  }

  /** When `m` is not a prefix of `t`, it occurs in `t` exactly when it occurs in `t[1..]`. */
  lemma OccurrenceAfterFirst(t: string, m: string)
    requires t != [] && !(m <= t)
    ensures (exists i :: OccursAt(t, m, i)) <==> (exists j :: OccursAt(t[1..], m, j))
  {
    if j :| OccursAt(t[1..], m, j) {
      assert t[1..][j..j + |m|] == t[j + 1..j + 1 + |m|];
      assert OccursAt(t, m, j + 1);
    }
    if i :| OccursAt(t, m, i) {
      assert i != 0;
      assert t[1..][i - 1..i - 1 + |m|] == t[i..i + |m|];
      assert OccursAt(t[1..], m, i - 1);
    }
  }

  /** Text found in `t` is still found after anything is written before or after `t`. */
  lemma {:induction false} ContainsExtended(t: string, m: string, before: string, after: string)
    requires Contains(t, m)
    ensures Contains(before + t + after, m)
  {
    var i :| OccursAt(t, m, i);
    var u := before + t + after;
    assert u[|before| + i..|before| + i + |m|] == t[i..i + |m|];
    assert OccursAt(u, m, |before| + i);
  }

  /** Leading whitespace removed (first half of `str.strip()`). */
  function TrimStart(s: string): (r: string)
    ensures |r| <= |s| && r == s[|s| - |r|..] && AllSpace(s[..|s| - |r|])
    ensures r == [] || !IsSpace(r[0])
  {
    if s != [] && IsSpace(s[0]) then
      var r := TrimStart(s[1..]);
      assert s[..|s| - |r|] == [s[0]] + s[1..][..|s| - 1 - |r|];
      r
    else s
  }

  /** Trailing whitespace removed (second half of `str.strip()`). */
  function TrimEnd(s: string): (r: string)
    ensures |r| <= |s| && r == s[..|r|] && AllSpace(s[|r|..])
    ensures r == [] || !IsSpace(r[|r| - 1])
  {
    if s != [] && IsSpace(s[|s| - 1]) then
      var r := TrimEnd(s[..|s| - 1]);
      assert s[|r|..] == s[..|s| - 1][|r|..] + [s[|s| - 1]];
      r
    else s
  }

  /** Python `s.strip()`. */
  function Strip(s: string): string {
    TrimEnd(TrimStart(s))
  }

  /** Python `s.replace(",", "")`. */
  function RemoveCommas(s: string): (r: string)
    ensures ',' !in r
    ensures ',' !in s ==> r == s
    ensures |r| <= |s|
  {
    if s == [] then []
    else if s[0] == ',' then RemoveCommas(s[1..])
    else
      assert s == [s[0]] + s[1..];
      [s[0]] + RemoveCommas(s[1..])
  }

  lemma {:induction false} RemoveCommasAppend(a: string, b: string)
    ensures RemoveCommas(a + b) == RemoveCommas(a) + RemoveCommas(b)
  {
    if a != [] {
      assert (a + b)[1..] == a[1..] + b;
      RemoveCommasAppend(a[1..], b);
    } else {
      assert a + b == b;
    }
  }

  lemma {:induction false} TrimStartAfterSpace(a: string, x: string)
    requires AllSpace(a)
    ensures TrimStart(a + x) == TrimStart(x)
  {
    if a != [] {
      assert (a + x)[1..] == a[1..] + x;
      TrimStartAfterSpace(a[1..], x);
    } else {
      assert a + x == x;
    }
  }

  lemma {:induction false} TrimEndBeforeSpace(x: string, b: string)
    requires AllSpace(b)
    ensures TrimEnd(x + b) == TrimEnd(x)
  {
    if b != [] {
      assert (x + b)[..|x + b| - 1] == x + b[..|b| - 1];
      TrimEndBeforeSpace(x, b[..|b| - 1]);
    } else {
      assert x + b == x;
    }
  }

  lemma {:induction false} TrimStartOfSpace(s: string)
    requires AllSpace(s)
    ensures TrimStart(s) == []
  {
    if s != [] {
      TrimStartOfSpace(s[1..]);
    }
  }

  /** Whitespace after a string does not change what `strip()` leaves. */
  lemma StripBeforeSpace(x: string, b: string)
    requires AllSpace(b)
    ensures Strip(x + b) == Strip(x)
  {
    var ts := TrimStart(x);
    TrimStartBeforeSpace(x, b);
    if ts == [] {
      assert ts + b == b;
      TrimStartOfSpace(b);
    } else {
      assert TrimStart(ts + b) == ts + b;
      TrimEndBeforeSpace(ts, b);
    }
  }

  /** Trimming the front of `x + b` trims the front of `x` and keeps `b`. */
  lemma TrimStartBeforeSpace(x: string, b: string)
    ensures TrimStart(x + b) == TrimStart(TrimStart(x) + b)
  {
    var ts := TrimStart(x);
    var k := |x| - |ts|;
    assert x + b == x[..k] + (ts + b) by {
      assert x == x[..k] + ts;
    }
    TrimStartAfterSpace(x[..k], ts + b);
  }

  /** Whitespace before or after a string does not change what `strip()` leaves. */
  lemma StripIgnoresSurroundingSpace(a: string, x: string, b: string)
    requires AllSpace(a) && AllSpace(b)
    ensures Strip(a + x + b) == Strip(x)
  {
    assert a + x + b == a + (x + b);
    TrimStartAfterSpace(a, x + b);
    StripBeforeSpace(x, b);
  }

  /**
   * `strip()` followed by `replace(",", "")` and one more `strip()` (the one `Decimal` applies)
   * gives the same text whether or not the commas were removed first.
   */
  lemma StripAfterRemovingCommas(s: string)
    ensures Strip(RemoveCommas(Strip(s))) == Strip(RemoveCommas(s))
  {
    var a, b := StripCut(s);
    var m := Strip(s);
    RemoveCommasAround(a, m, b);
    StripIgnoresSurroundingSpace(a, RemoveCommas(m), b);
  }

  /** `strip()` cuts whitespace off both ends and nothing else. */
  lemma StripCut(s: string) returns (a: string, b: string)
    ensures AllSpace(a) && AllSpace(b)
    ensures s == a + Strip(s) + b
  {
    var ts := TrimStart(s);
    var m := TrimEnd(ts);
    a := TrimStartCut(s);
    b := TrimEndCut(ts);
    Reassociate(a, m, b);
  }

  /** The leading whitespace `lstrip()` drops, put back in front, gives the input. */
  lemma TrimStartCut(s: string) returns (a: string)
    ensures AllSpace(a) && s == a + TrimStart(s)
  {
    a := s[..|s| - |TrimStart(s)|];
    CutAt(s, |s| - |TrimStart(s)|);
  }

  /** The trailing whitespace `rstrip()` drops, put back behind, gives the input. */
  lemma TrimEndCut(s: string) returns (b: string)
    ensures AllSpace(b) && s == TrimEnd(s) + b
  {
    b := s[|TrimEnd(s)|..];
    CutAt(s, |TrimEnd(s)|);
  }

  lemma Reassociate(a: string, m: string, b: string)
    ensures a + (m + b) == a + m + b
  {
  }

  lemma CutAt(s: string, k: int)
    requires 0 <= k <= |s|
    ensures s == s[..k] + s[k..]
  {
  }

  /** Whitespace holds no comma, so only the middle text loses any. */
  lemma RemoveCommasAround(a: string, m: string, b: string)
    requires AllSpace(a) && AllSpace(b)
    ensures RemoveCommas(a + m + b) == a + RemoveCommas(m) + b
  {
    assert ',' !in a && ',' !in b by {
      assert !IsSpace(',');
    }
    RemoveCommasAppend(a + m, b);
    RemoveCommasAppend(a, m);
  }
}
