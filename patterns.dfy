/**
 * The fragment of Python's `re.search` the two bill extractors use, on `string = seq<char>`.
 *
 * A pattern is a list of alternatives (`(?:A|B)` at the front of a pattern becomes two
 * alternatives that share their tail), each a sequence of elements: literal text, a run of
 * whitespace (`\s*`, `\s+`), `.*`, or a capturing group of one of the shapes the extractors
 * capture (`\d+`, `-?\d+`, `\d{n}`, `\d{4}/\d{2}/\d{2}`, `[\d.]+`, `[-\d.]+`).
 *
 * `Splits` says when a sequence of boundaries cuts a stretch of text into pieces each element
 * accepts: every way the pattern can match. Python's engine tries start positions left to right,
 * alternatives in order, and, for each element, the longest piece first (all quantifiers here are
 * greedy), backtracking on failure; so the match it reports is, at the leftmost start that has
 * one, for the first alternative that has one, the lexicographically greatest boundary sequence.
 * `Search` is proved to return exactly that.
 */
module Patterns {
  import opened Wrappers
  import opened Text

  /** What a capturing group accepts. */
  datatype Shape =
    | Digits                    // \d+
    | SignedDigits              // \-?\d+
    | FixedDigits(count: nat)   // \d{count}
    | DateToken                 // \d{4}/\d{2}/\d{2}
    | AmountChars(signed: bool) // [\d\.]+, or [\-\d\.]+ when signed

  datatype Elem =
    | Lit(s: string)            // literal text
    | Spaces(atLeast: nat)      // \s* (0) or \s+ (1)
    | DotStar                   // .* : anything but a newline
    | Group(shape: Shape)       // a capturing group

  /** Alternatives tried in order at each start, and whether `re.IGNORECASE` was given. */
  datatype Pattern = Pattern(alts: seq<seq<Elem>>, ignoreCase: bool)

  /** ASCII case folding: how the model reads `re.IGNORECASE` for the English labels. */
  function Fold(c: char): char {
    if 'A' <= c <= 'Z' then (c as int + 32) as char else c
  }

  predicate CharMatches(c: char, p: char, ignoreCase: bool) {
    if ignoreCase then Fold(c) == Fold(p) else c == p
  }

  predicate ShapeText(w: string, sh: Shape) {
    match sh
    case Digits => |w| > 0 && AllDigits(w)
    case SignedDigits => SignedDigitText(w)
    case FixedDigits(count) => |w| == count && AllDigits(w)
    case DateToken =>
      |w| == 10 && AllDigits(w[..4]) && w[4] == '/' && AllDigits(w[5..7]) && w[7] == '/' && AllDigits(w[8..])
    case AmountChars(signed) =>
      |w| > 0 && forall j :: 0 <= j < |w| ==> IsDigit(w[j]) || w[j] == '.' || (signed && w[j] == '-')
  }

  /** Element `e` accepts `t[i..k]`. */
  predicate Spans(t: string, e: Elem, ic: bool, i: int, k: int) {
    0 <= i <= k <= |t| &&
    match e
    case Lit(s) => k - i == |s| && forall j :: 0 <= j < |s| ==> CharMatches(t[i + j], s[j], ic)
    case Spaces(n) => k - i >= n && AllSpace(t[i..k])
    case DotStar => '\n' !in t[i..k]
    case Group(sh) => ShapeText(t[i..k], sh)
  }

  /** Boundaries `b[0] <= ... <= b[|alt|]` cut `t[b[0]..b[|alt|]]` into pieces the elements accept in turn. */
  predicate Splits(t: string, alt: seq<Elem>, ic: bool, b: seq<nat>) {
    |b| == |alt| + 1 && b[0] <= |t| &&
    forall n :: 0 <= n < |alt| ==> Spans(t, alt[n], ic, b[n], b[n + 1])
  }

  /** Lexicographic order on boundary sequences of equal length. */
  predicate LexLeq(a: seq<nat>, b: seq<nat>)
    requires |a| == |b|
  {
    |a| == 0 || a[0] < b[0] || (a[0] == b[0] && LexLeq(a[1..], b[1..]))
  }

  /** `a` is not greater than `b`, and the two agree before position `n`: then `a[n] <= b[n]`. */
  lemma {:induction false} LexLeqAt(a: seq<nat>, b: seq<nat>, n: nat)
    requires |a| == |b| && n < |a| && LexLeq(a, b) && a[..n] == b[..n]
    ensures a[n] <= b[n]
  {
    if n > 0 {
      assert a[0] == a[..n][0] == b[..n][0] == b[0];
      assert a[1..][..n - 1] == a[1..n] == b[1..n] == b[1..][..n - 1];
      LexLeqAt(a[1..], b[1..], n - 1);
    }
  }

  lemma SplitsTail(t: string, alt: seq<Elem>, ic: bool, b: seq<nat>)
    requires alt != [] && Splits(t, alt, ic, b)
    ensures Spans(t, alt[0], ic, b[0], b[1]) && Splits(t, alt[1..], ic, b[1..])
  {
    forall n | 0 <= n < |alt| - 1 ensures Spans(t, alt[1..][n], ic, b[1..][n], b[1..][n + 1]) {
      assert Spans(t, alt[n + 1], ic, b[n + 1], b[n + 2]);
    }
  }

  lemma SplitsCons(t: string, alt: seq<Elem>, ic: bool, i: nat, b: seq<nat>)
    requires alt != [] && Splits(t, alt[1..], ic, b) && Spans(t, alt[0], ic, i, b[0])
    ensures Splits(t, alt, ic, [i] + b)
  {
    var c := [i] + b;
    forall n | 0 <= n < |alt| ensures Spans(t, alt[n], ic, c[n], c[n + 1]) {
      if n > 0 {
        assert Spans(t, alt[1..][n - 1], ic, b[n - 1], b[n]);
      }
    }
  }

  /** The engine at one start, for one alternative: `None` if it cannot match there. */
  function MatchAt(t: string, alt: seq<Elem>, ic: bool, i: nat): (r: Option<seq<nat>>)
    requires i <= |t|
    ensures r.Some? ==> Splits(t, alt, ic, r.value) && r.value[0] == i
    decreases |alt|, 1, 0
  {
    if alt == [] then Some([i]) else MatchFrom(t, alt, ic, i, |t|)
  }

  /** Backtracking over the first element's piece `t[i..k]`, longest first, then the rest of `alt` after it. */
  function MatchFrom(t: string, alt: seq<Elem>, ic: bool, i: nat, k: nat): (r: Option<seq<nat>>)
    requires alt != [] && i <= k <= |t|
    ensures r.Some? ==> Splits(t, alt, ic, r.value) && r.value[0] == i && r.value[1] <= k
    decreases |alt|, 0, k
  {
    var rest := if Spans(t, alt[0], ic, i, k) then MatchAt(t, alt[1..], ic, k) else None;
    if rest.Some? then
      SplitsCons(t, alt, ic, i, rest.value);
      Some([i] + rest.value)
    else if k == i then None
    else MatchFrom(t, alt, ic, i, k - 1)
  }

  /** Whenever `alt` can match from `b[0]`, the engine finds a match there, and `b` is not greater than it. */
  lemma {:induction false} MatchAtMaximal(t: string, alt: seq<Elem>, ic: bool, b: seq<nat>)
    requires Splits(t, alt, ic, b)
    ensures MatchAt(t, alt, ic, b[0]).Some?
    ensures LexLeq(b, MatchAt(t, alt, ic, b[0]).value)
    decreases |alt|, 1, 0
  {
    if alt != [] {
      SplitsTail(t, alt, ic, b);
      MatchFromMaximal(t, alt, ic, b, |t|);
    }
  }

  lemma {:induction false} MatchFromMaximal(t: string, alt: seq<Elem>, ic: bool, b: seq<nat>, k: nat)
    requires alt != [] && Splits(t, alt, ic, b) && b[1] <= k <= |t|
    ensures MatchFrom(t, alt, ic, b[0], k).Some?
    ensures LexLeq(b, MatchFrom(t, alt, ic, b[0], k).value)
    decreases |alt|, 0, k
  {
    var i := b[0];
    SplitsTail(t, alt, ic, b);
    MatchAtMaximal(t, alt[1..], ic, b[1..]);
    if Spans(t, alt[0], ic, i, k) && MatchAt(t, alt[1..], ic, k).Some? {
      var rv := MatchAt(t, alt[1..], ic, k).value;
      assert MatchFrom(t, alt, ic, i, k).value == [i] + rv;
      assert ([i] + rv)[1..] == rv;
      if b[1] == k {
        assert LexLeq(b[1..], rv);
      } else {
        assert b[1..][0] < rv[0];
      }
    } else {
      assert b[1] != k;
      MatchFromMaximal(t, alt, ic, b, k - 1);
    }
  }

  /** `MatchAt` decides whether `alt` matches at `s`, and returns the greatest way it does. */
  lemma MatchAtExact(t: string, alt: seq<Elem>, ic: bool, s: nat)
    requires s <= |t|
    ensures MatchAt(t, alt, ic, s).None? ==> forall b :: Splits(t, alt, ic, b) ==> b[0] != s
    ensures MatchAt(t, alt, ic, s).Some? ==>
      forall b :: Splits(t, alt, ic, b) && b[0] == s ==> LexLeq(b, MatchAt(t, alt, ic, s).value)
  {
    forall b | Splits(t, alt, ic, b) && b[0] == s
      ensures MatchAt(t, alt, ic, s).Some? && LexLeq(b, MatchAt(t, alt, ic, s).value)
    {
      MatchAtMaximal(t, alt, ic, b);
    }
  }

  /** An element whose pieces all have one length. */
  predicate FixedWidth(e: Elem) {
    e.Lit? || (e.Group? && (e.shape.FixedDigits? || e.shape.DateToken?))
  }

  /** An alternative made only of fixed-width elements matches in at most one way at each start. */
  lemma {:induction false} FixedSplitsUnique(t: string, alt: seq<Elem>, ic: bool, b: seq<nat>, c: seq<nat>)
    requires forall n :: 0 <= n < |alt| ==> FixedWidth(alt[n])
    requires Splits(t, alt, ic, b) && Splits(t, alt, ic, c) && b[0] == c[0]
    ensures b == c
    decreases |alt|
  {
    if alt != [] {
      SplitsTail(t, alt, ic, b);
      SplitsTail(t, alt, ic, c);
      assert b[1] == c[1];
      FixedSplitsUnique(t, alt[1..], ic, b[1..], c[1..]);
      assert b == [b[0]] + b[1..];
      assert c == [c[0]] + c[1..];
    }
  }

  /** Alternative `a` of `p` can match at start `s` in some way. */
  ghost predicate MatchesAt(t: string, p: Pattern, a: nat, s: nat) {
    a < |p.alts| && exists b :: Splits(t, p.alts[a], p.ignoreCase, b) && b[0] == s
  }

  /** `p` matches somewhere in `t`. */
  ghost predicate Matches(t: string, p: Pattern) {
    exists s: nat, a: nat :: MatchesAt(t, p, a, s)
  }

  /** A match: where it starts, which alternative matched, and the boundaries of its pieces. */
  datatype Found = Found(start: nat, alt: nat, bounds: seq<nat>)

  /** `f` is a match of `p` in `t`, and the one the engine prefers among those at its start for its alternative. */
  ghost predicate IsPreferred(t: string, p: Pattern, f: Found) {
    && f.alt < |p.alts|
    && Splits(t, p.alts[f.alt], p.ignoreCase, f.bounds)
    && f.bounds[0] == f.start
    && (forall b :: Splits(t, p.alts[f.alt], p.ignoreCase, b) && b[0] == f.start ==> LexLeq(b, f.bounds))
  }

  /** The alternatives from `a` on, in order, at start `s`. */
  function FirstAlt(t: string, p: Pattern, s: nat, a: nat): (r: Option<Found>)
    requires s <= |t| && a <= |p.alts|
    ensures r.Some? ==> r.value.start == s && a <= r.value.alt && IsPreferred(t, p, r.value)
    ensures r.Some? ==> forall a': nat :: a <= a' < r.value.alt ==> !MatchesAt(t, p, a', s)
    ensures r.None? ==> forall a': nat :: a <= a' ==> !MatchesAt(t, p, a', s)
    decreases |p.alts| - a
  {
    if a == |p.alts| then None
    else
      MatchAtExact(t, p.alts[a], p.ignoreCase, s);
      match MatchAt(t, p.alts[a], p.ignoreCase, s)
      case Some(b) => Some(Found(s, a, b))
      case None => FirstAlt(t, p, s, a + 1)
  }

  /** Start positions from `s` on, left to right. */
  function SearchFrom(t: string, p: Pattern, s: nat): (r: Option<Found>)
    requires s <= |t|
    ensures r.Some? ==> s <= r.value.start && IsPreferred(t, p, r.value)
    ensures r.Some? ==> forall a: nat :: a < r.value.alt ==> !MatchesAt(t, p, a, r.value.start)
    ensures r.Some? ==> forall s': nat, a: nat :: s <= s' < r.value.start ==> !MatchesAt(t, p, a, s')
    ensures r.None? ==> forall s': nat, a: nat :: s <= s' ==> !MatchesAt(t, p, a, s')
    decreases |t| - s
  {
    match FirstAlt(t, p, s, 0)
    case Some(f) => Some(f)
    case None =>
      if s == |t| then
        assert forall s': nat, a: nat :: s < s' ==> !MatchesAt(t, p, a, s');
        None
      else SearchFrom(t, p, s + 1)
  }

  /**
   * `re.search(p, t)`: the leftmost start at which some alternative matches, the first
   * alternative matching there, and the way of matching it the greedy engine prefers;
   * `None` when the pattern matches nowhere.
   */
  function Search(t: string, p: Pattern): (r: Option<Found>)
    ensures r.Some? ==> IsPreferred(t, p, r.value)
    ensures r.Some? ==> forall a: nat :: a < r.value.alt ==> !MatchesAt(t, p, a, r.value.start)
    ensures r.Some? ==> forall s: nat, a: nat :: s < r.value.start ==> !MatchesAt(t, p, a, s)
    ensures r.None? <==> !Matches(t, p)
  {
    var r := SearchFrom(t, p, 0);
    assert r.Some? ==> MatchesAt(t, p, r.value.alt, r.value.start);
    r
  }

  /** The shapes of the capturing groups of `alt`, in order. */
  function GroupShapes(alt: seq<Elem>): seq<Shape> {
    if alt == [] then []
    else (if alt[0].Group? then [alt[0].shape] else []) + GroupShapes(alt[1..])
  }

  /** `m.groups()`: the text each capturing group took, in order. */
  function Groups(t: string, alt: seq<Elem>, ic: bool, b: seq<nat>): seq<string>
    requires Splits(t, alt, ic, b)
    decreases |alt|
  {
    if alt == [] then []
    else
      SplitsTail(t, alt, ic, b);
      (if alt[0].Group? then [t[b[0]..b[1]]] else []) + Groups(t, alt[1..], ic, b[1..])
  }

  /** There is one text per group, and each has its group's shape. */
  lemma {:induction false} GroupsFit(t: string, alt: seq<Elem>, ic: bool, b: seq<nat>)
    requires Splits(t, alt, ic, b)
    ensures |Groups(t, alt, ic, b)| == |GroupShapes(alt)|
    ensures forall n :: 0 <= n < |GroupShapes(alt)| ==> ShapeText(Groups(t, alt, ic, b)[n], GroupShapes(alt)[n])
    decreases |alt|
  {
    if alt != [] {
      SplitsTail(t, alt, ic, b);
      GroupsFit(t, alt[1..], ic, b[1..]);
      var rest := Groups(t, alt[1..], ic, b[1..]);
      var g := Groups(t, alt, ic, b);
      if alt[0].Group? {
        assert g == [t[b[0]..b[1]]] + rest;
        assert GroupShapes(alt) == [alt[0].shape] + GroupShapes(alt[1..]);
        forall n | 0 <= n < |GroupShapes(alt)| ensures ShapeText(g[n], GroupShapes(alt)[n]) {
          if n > 0 {
            assert g[n] == rest[n - 1];
          }
        }
      } else {
        assert g == rest;
      }
    }
  }

  /** Every alternative has the same groups, so the groups of a match do not depend on which one matched. */
  predicate WellFormed(p: Pattern) {
    |p.alts| > 0 && forall a :: 0 <= a < |p.alts| ==> GroupShapes(p.alts[a]) == GroupShapes(p.alts[0])
  }

  /** `m.groups()` of `re.search(p, t)`, or `None` when there is no match. */
  function SearchGroups(t: string, p: Pattern): (r: Option<seq<string>>)
    requires WellFormed(p)
    ensures r.None? <==> !Matches(t, p)
    ensures r.Some? ==> |r.value| == |GroupShapes(p.alts[0])|
    ensures r.Some? ==> forall n :: 0 <= n < |r.value| ==> ShapeText(r.value[n], GroupShapes(p.alts[0])[n])
  {
    match Search(t, p)
    case None => None
    case Some(f) =>
      GroupsFit(t, p.alts[f.alt], p.ignoreCase, f.bounds);
      Some(Groups(t, p.alts[f.alt], p.ignoreCase, f.bounds))
  }

  /** Group `n` of the first match of `p` in `t`, or `None` when `p` matches nowhere. */
  function Capture(t: string, p: Pattern, n: nat): (r: Option<string>)
    requires WellFormed(p) && n < |GroupShapes(p.alts[0])|
    ensures r.None? <==> !Matches(t, p)
    ensures r.Some? ==> ShapeText(r.value, GroupShapes(p.alts[0])[n])
  {
    match SearchGroups(t, p)
    case None => None
    case Some(g) => Some(g[n])
  }

  /** `int(m.group(n))` for a `\d+` group: never negative. */
  function CaptureNat(t: string, p: Pattern, n: nat): (r: Option<int>)
    requires WellFormed(p) && n < |GroupShapes(p.alts[0])| && GroupShapes(p.alts[0])[n] == Digits
    ensures r.None? <==> !Matches(t, p)
    ensures r.Some? ==> r.value >= 0 && r.value == DigitsValue(Capture(t, p, n).value)
  {
    match Capture(t, p, n)
    case None => None
    case Some(w) => Some(DigitsValue(w))
  }

  /** `int(m.group(n))` for a `-?\d+` group. */
  function CaptureInt(t: string, p: Pattern, n: nat): (r: Option<int>)
    requires WellFormed(p) && n < |GroupShapes(p.alts[0])| && GroupShapes(p.alts[0])[n] == SignedDigits
    ensures r.None? <==> !Matches(t, p)
    ensures r.Some? ==> r.value == SignedValue(Capture(t, p, n).value)
  {
    match Capture(t, p, n)
    case None => None
    case Some(w) => Some(SignedValue(w))
  }

  /** A non-empty run of whitespace starts with a whitespace character. */
  lemma SpacesStartWithSpace(t: string, i: int, k: int)
    ensures 0 <= i < k <= |t| && AllSpace(t[i..k]) ==> IsSpace(t[i])
  {
    if 0 <= i < k <= |t| && AllSpace(t[i..k]) {
      assert t[i..k][0] == t[i];
    }
  }

  /**
   * A label immediately followed by text its group accepts, and nothing else: `re.search`
   * matches at the start and the group takes the whole of that text.
   */
  lemma LabelThenGroup(l: string, sh: Shape, w: string)
    requires |w| > 0 && ShapeText(w, sh) && !IsSpace(w[0])
    ensures WellFormed(Pattern([[Lit(l), Spaces(0), Group(sh)]], false))
    ensures SearchGroups(l + w, Pattern([[Lit(l), Spaces(0), Group(sh)]], false)) == Some([w])
  {
    var t := l + w;
    var alt := [Lit(l), Spaces(0), Group(sh)];
    var p := Pattern([alt], false);
    var c: seq<nat> := [0, |l|, |l|, |t|];
    assert t[|l|..|t|] == w;
    assert Spans(t, alt[0], false, 0, |l|) by {
      forall j | 0 <= j < |l| ensures CharMatches(t[j], l[j], false) {
      }
    }
    assert Splits(t, alt, false, c);
    assert MatchesAt(t, p, 0, 0);
    var f := Search(t, p).value;
    assert f.start == 0 && f.alt == 0;
    var b := f.bounds;
    assert b[0] == 0 && b[1] == |l|;
    SpacesStartWithSpace(t, |l|, b[2]);
    assert t[|l|] == w[0];
    assert b[2] == |l|;
    assert c[..3] == b[..3];
    LexLeqAt(c, b, 3);
    assert b == c;
    assert Groups(t, alt, false, c) == [w] by {
      SplitsTail(t, alt, false, c);
      SplitsTail(t, alt[1..], false, c[1..]);
      SplitsTail(t, alt[2..], false, c[2..]);
      assert alt[1..][1..] == alt[2..] && c[1..][1..] == c[2..];
      assert Groups(t, alt[2..], false, c[2..]) == [t[|l|..|t|]] + Groups(t, alt[3..], false, c[3..]);
    }
  }

  /** The one group of a label-then-group pattern. */
  lemma LabelGroupShapes(l: string, sh: Shape)
    ensures GroupShapes([Lit(l), Spaces(0), Group(sh)]) == [sh]
  {
    var last := [Group(sh)];
    assert last[1..] == [];
    assert GroupShapes(last) == [sh];
    var tail := [Spaces(0), Group(sh)];
    assert tail[1..] == last;
    assert GroupShapes(tail) == [sh];
    var alt := [Lit(l), Spaces(0), Group(sh)];
    assert alt[1..] == tail;
  }

  /** A label followed by a minus sign and digits: the `-?\d+` group after it reads a negative number. */
  lemma LabelThenNegative(p: Pattern, l: string, d: string)
    requires p == Pattern([[Lit(l), Spaces(0), Group(SignedDigits)]], false)
    requires |d| > 0 && AllDigits(d)
    ensures WellFormed(p) && GroupShapes(p.alts[0]) == [SignedDigits]
    ensures Matches(l + ("-" + d), p)
    ensures SignedDigitText("-" + d) && SignedValue("-" + d) == -(DigitsValue(d) as int)
    ensures CaptureInt(l + ("-" + d), p, 0) == Some(SignedValue("-" + d))
  {
    var w := "-" + d;
    assert w[1..] == d;
    LabelThenGroup(l, SignedDigits, w);
    LabelGroupShapes(l, SignedDigits);
    assert Capture(l + w, p, 0) == Some(w);
    assert SignedValue(w) == -(DigitsValue(d) as int);
  }
}
