/**
 * The `--size` argument: `parse_size` and its `units` table (fillmp3.py:11, 112-124).
 *
 * The script matches the string against
 *   \s*(?P<number>[0-9]+)\s*((?P<prefix>[kmg]i?)?b?)?\s*
 * case-insensitively, anchored at the start only, so whatever follows the match is
 * ignored. Every part after the digits may match nothing, so the regular expression
 * never backtracks into a shorter choice: the recognizer below takes each part
 * greedily, left to right. The number is then scaled by the multiplier the
 * lower-cased prefix names in the table.
 */
module SizeParser {
  import opened Wrappers
  import opened Text

  /** Why a size string is refused; either way the script stops before selecting anything. */
  datatype SizeError =
    | NoMatch   // no digit after the leading whitespace: the script reports it and quits
    | NoPrefix  // digits without a k, m or g: the absent `prefix` group has no `lower()`

  /** The `units` table: 2^10, 2^20, 2^30 for the binary prefixes and 10^3, 10^6, 10^9 for the decimal ones. */
  const Units: map<string, nat> :=
    map["ki" := 1024, "mi" := 1048576, "gi" := 1073741824,
        "k" := 1000, "m" := 1000000, "g" := 1000000000]

  // ---------------------------------------------------------------------------
  // Character classes, ASCII only; `\s` is Text.IsSpace.

  predicate IsDigit(c: char) {
    '0' <= c <= '9'
  }

  /** `[kmg]` under `re.I`. */
  predicate IsUnitLetter(c: char) {
    c in "kKmMgG"
  }

  /** `i` under `re.I`: marks the binary form of a prefix. */
  predicate IsBinaryMark(c: char) {
    c == 'i' || c == 'I'
  }

  /** `b` under `re.I`. */
  predicate IsByteMark(c: char) {
    c == 'b' || c == 'B'
  }

  predicate AllDigits(s: string) {
    forall k :: 0 <= k < |s| ==> IsDigit(s[k])
  }

  // ---------------------------------------------------------------------------
  // The recognizer.

  /** End of the longest run of whitespace starting at `i` (`\s*`). */
  function SkipSpaces(s: string, i: nat): (j: nat)
    requires i <= |s|
    ensures i <= j <= |s|
    ensures forall k :: i <= k < j ==> IsSpace(s[k])
    ensures j == |s| || !IsSpace(s[j])
    decreases |s| - i
  {
    if i < |s| && IsSpace(s[i]) then SkipSpaces(s, i + 1) else i
  }

  /** End of the longest run of digits starting at `i` (`[0-9]+` when it is not empty). */
  function SkipDigits(s: string, i: nat): (j: nat)
    requires i <= |s|
    ensures i <= j <= |s|
    ensures forall k :: i <= k < j ==> IsDigit(s[k])
    ensures j == |s| || !IsDigit(s[j])
    decreases |s| - i
  {
    if i < |s| && IsDigit(s[i]) then SkipDigits(s, i + 1) else i
  }

  /** End of the optional `[kmg]i?` starting at `c`; `c` itself when there is no unit letter. */
  function PrefixEnd(s: string, c: nat): (d: nat)
    requires c <= |s|
    ensures c <= d <= |s|
    ensures d == c <==> c == |s| || !IsUnitLetter(s[c])
    ensures d > c ==> d <= c + 2 && (d == c + 2 <==> c + 1 < |s| && IsBinaryMark(s[c + 1]))
  {
    if c < |s| && IsUnitLetter(s[c]) then
      if c + 1 < |s| && IsBinaryMark(s[c + 1]) then c + 2 else c + 1
    else c
  }

  /** What `reobject.match` reports: the `number` group, the `prefix` group if it took part, and where the match ends. */
  datatype SizeMatch = SizeMatch(number: string, prefix: Option<string>, end: nat)

  function Match(s: string): (r: Option<SizeMatch>)
    ensures r.Some? ==> |r.value.number| > 0 && AllDigits(r.value.number) && r.value.end <= |s|
    ensures r.Some? && r.value.prefix.Some? ==>
              var p := r.value.prefix.value;
              1 <= |p| <= 2 && IsUnitLetter(p[0]) && (|p| == 2 ==> IsBinaryMark(p[1]))
  {
    var a := SkipSpaces(s, 0);
    var b := SkipDigits(s, a);
    if a == b then None
    else
      var c := SkipSpaces(s, b);
      var d := PrefixEnd(s, c);
      var e := if d < |s| && IsByteMark(s[d]) then d + 1 else d;
      Some(SizeMatch(s[a..b], if d == c then None else Some(s[c..d]), SkipSpaces(s, e)))
  }

  /**
   * The decimal value of a run of ASCII digits, as `int()` reads it; leading zeros
   * are allowed. Any length is read: no digit-count limit applies.
   */
  function DecimalValue(ds: string): (v: nat)
    requires AllDigits(ds)
    ensures v < Pow(10, |ds|)
  {
    if |ds| == 0 then 0
    else DecimalValue(ds[..|ds| - 1]) * 10 + (ds[|ds| - 1] as int - '0' as int)
  }

  function LowerChar(c: char): char {
    if 'A' <= c <= 'Z' then (c as int + 32) as char else c
  }

  /** `str.lower()` on ASCII letters. */
  function Lower(s: string): (r: string)
    ensures |r| == |s| && forall k :: 0 <= k < |s| ==> r[k] == LowerChar(s[k])
  {
    seq(|s|, k requires 0 <= k < |s| => LowerChar(s[k]))
  }

  /** `parse_size`: the number scaled by its prefix, or why the script stops. */
  function ParseSize(s: string): (r: Result<nat, SizeError>)
    ensures r.Success? <==> Match(s).Some? && Match(s).value.prefix.Some?
    ensures r == Failure(NoMatch) <==> Match(s).None?
  {
    match Match(s)
    case None => Failure(NoMatch)
    case Some(m) =>
      if m.prefix.None? then Failure(NoPrefix)
      else
        var number := DecimalValue(m.number);
        var prefix := Lower(m.prefix.value);
        if prefix in Units then Success(number * Units[prefix]) else Success(number)
  }

  /** `int()` ignores leading zeros: a zero in front of the digits changes nothing. */
  lemma {:induction false} DecimalLeadingZero(ds: string)
    requires AllDigits(ds)
    ensures AllDigits("0" + ds) && DecimalValue("0" + ds) == DecimalValue(ds)
  {
    var zs := "0" + ds;
    if |ds| > 0 {
      var init := ds[..|ds| - 1];
      DecimalLeadingZero(init);
      assert zs[..|zs| - 1] == "0" + init;
      assert zs[|zs| - 1] == ds[|ds| - 1];
    } else {
      assert zs[..0] == "";
    }
  }

  // ---------------------------------------------------------------------------
  // What a size string means, stated apart from the recognizer.

  function Pow(b: nat, e: nat): nat {
    if e == 0 then 1 else b * Pow(b, e - 1)
  }

  /** 1 for kilo, 2 for mega, 3 for giga. */
  function Rank(p: char): nat
    requires IsUnitLetter(p)
  {
    if p in "kK" then 1 else if p in "mM" then 2 else 3
  }

  /** The multiplier a unit letter stands for: 1000^rank, or 1024^rank in the binary form. */
  function Scale(p: char, binary: bool): nat
    requires IsUnitLetter(p)
  {
    if binary then Pow(1024, Rank(p)) else Pow(1000, Rank(p))
  }

  /** Every prefix the recognizer can report is a key of the table, and its entry is the unit's scale. */
  lemma PrefixInUnits(p: string)
    requires 1 <= |p| <= 2 && IsUnitLetter(p[0]) && (|p| == 2 ==> IsBinaryMark(p[1]))
    ensures Lower(p) in Units && Units[Lower(p)] == Scale(p[0], |p| == 2)
  {
    var l := Lower(p);
    assert Pow(1000, 3) == 1000000000 && Pow(1024, 3) == 1073741824;
    if |p| == 1 {
      assert l == [LowerChar(p[0])];
    } else {
      assert l == [LowerChar(p[0]), 'i'];
    }
  }

  /** Whatever `reobject.match` reports, a prefix it found is a key of `units` (fillmp3.py:121-123). */
  lemma MatchedPrefixInUnits(s: string)
    requires Match(s).Some? && Match(s).value.prefix.Some?
    ensures Lower(Match(s).value.prefix.value) in Units
  {
    PrefixInUnits(Match(s).value.prefix.value);
  }

  lemma SkipSpacesTo(s: string, i: nat, j: nat)
    requires i <= j <= |s|
    requires forall k :: i <= k < j ==> IsSpace(s[k])
    requires j == |s| || !IsSpace(s[j])
    ensures SkipSpaces(s, i) == j
  {
  }

  lemma SkipDigitsTo(s: string, i: nat, j: nat)
    requires i <= j <= |s|
    requires forall k :: i <= k < j ==> IsDigit(s[k])
    requires j == |s| || !IsDigit(s[j])
    ensures SkipDigits(s, i) == j
  {
  }

  /**
   * A string that reads: whitespace up to `a`, digits up to `b`, whitespace up to
   * `c`, then a unit letter. Its size is the number times the unit's scale, binary
   * exactly when an `i` follows the letter; anything later is ignored.
   */
  lemma ParseSizeScaled(s: string, a: nat, b: nat, c: nat)
    requires a < b <= c < |s|
    requires forall k :: 0 <= k < a ==> IsSpace(s[k])
    requires forall k :: a <= k < b ==> IsDigit(s[k])
    requires forall k :: b <= k < c ==> IsSpace(s[k])
    requires IsUnitLetter(s[c])
    ensures AllDigits(s[a..b])
    ensures ParseSize(s) == Success(DecimalValue(s[a..b]) * Scale(s[c], c + 1 < |s| && IsBinaryMark(s[c + 1])))
  {
    SkipSpacesTo(s, 0, a);
    SkipDigitsTo(s, a, b);
    SkipSpacesTo(s, b, c);
    var d := PrefixEnd(s, c);
    PrefixInUnits(s[c..d]);
  }

  /** Without a digit after the leading whitespace (which ends at `a`) the match fails and the script quits. */
  lemma ParseSizeNoNumber(s: string, a: nat)
    requires a <= |s|
    requires forall k :: 0 <= k < a ==> IsSpace(s[k])
    requires a == |s| || (!IsSpace(s[a]) && !IsDigit(s[a]))
    ensures ParseSize(s) == Failure(NoMatch)
  {
    SkipSpacesTo(s, 0, a);
    SkipDigitsTo(s, a, a);
  }

  /**
   * Digits followed, after optional whitespace, by anything but a unit letter (the
   * end, a `b`, a second number): the `prefix` group is absent and `lower()` fails.
   */
  lemma ParseSizeNoUnit(s: string, a: nat, b: nat, c: nat)
    requires a < b <= c <= |s|
    requires forall k :: 0 <= k < a ==> IsSpace(s[k])
    requires forall k :: a <= k < b ==> IsDigit(s[k])
    requires forall k :: b <= k < c ==> IsSpace(s[k])
    requires c == |s| || (!IsSpace(s[c]) && !IsUnitLetter(s[c]) && (b == c ==> !IsDigit(s[c])))
    ensures ParseSize(s) == Failure(NoPrefix)
  {
    SkipSpacesTo(s, 0, a);
    SkipDigitsTo(s, a, b);
    SkipSpacesTo(s, b, c);
  }

  lemma SkipSpacesExtend(s: string, u: string, i: nat)
    requires s <= u && i <= |s| && SkipSpaces(s, i) < |s|
    ensures SkipSpaces(u, i) == SkipSpaces(s, i)
  {
    var j := SkipSpaces(s, i);
    assert forall k :: i <= k <= j ==> u[k] == s[k];
    SkipSpacesTo(u, i, j);
  }

  lemma SkipDigitsExtend(s: string, u: string, i: nat)
    requires s <= u && i <= |s| && SkipDigits(s, i) < |s|
    ensures SkipDigits(u, i) == SkipDigits(s, i)
  {
    var j := SkipDigits(s, i);
    assert forall k :: i <= k <= j ==> u[k] == s[k];
    SkipDigitsTo(u, i, j);
  }

  /**
   * Text after a match that stopped short of the end of the string changes nothing
   * (`re.match`, not a full match): every extension `u` of such an `s` matches alike.
   */
  lemma ParseSizeIgnoresTail(s: string, u: string)
    requires s <= u
    requires Match(s).Some? && Match(s).value.end < |s|
    ensures Match(u) == Match(s)
    ensures ParseSize(u) == ParseSize(s)
  {
    MatchIgnoresTail(s, u);
  }

  /** Each scan of the recognizer stops at the same place in `u` as in `s`. */
  lemma ScansIgnoreTail(s: string, u: string, a: nat, b: nat, c: nat, d: nat, e: nat)
    requires s <= u
    requires Match(s).Some? && Match(s).value.end < |s|
    requires a == SkipSpaces(s, 0) && b == SkipDigits(s, a) && c == SkipSpaces(s, b)
    requires d == PrefixEnd(s, c) && e == if d < |s| && IsByteMark(s[d]) then d + 1 else d
    ensures SkipSpaces(u, 0) == a && SkipDigits(u, a) == b && SkipSpaces(u, b) == c
    ensures PrefixEnd(u, c) == d && d < |s| && u[d] == s[d] && SkipSpaces(u, e) == SkipSpaces(s, e)
  {
    assert e <= SkipSpaces(s, e) < |s|;
    SkipSpacesExtend(s, u, 0);
    SkipDigitsExtend(s, u, a);
    SkipSpacesExtend(s, u, b);
    assert u[c] == s[c] && (c + 1 < |s| ==> u[c + 1] == s[c + 1]) && u[d] == s[d];
    assert PrefixEnd(u, c) == d;
    SkipSpacesExtend(s, u, e);
  }

  lemma MatchIgnoresTail(s: string, u: string)
    requires s <= u
    requires Match(s).Some? && Match(s).value.end < |s|
    ensures Match(u) == Match(s)
  {
    var a := SkipSpaces(s, 0);
    var b := SkipDigits(s, a);
    var c := SkipSpaces(s, b);
    var d := PrefixEnd(s, c);
    var e := if d < |s| && IsByteMark(s[d]) then d + 1 else d;
    ScansIgnoreTail(s, u, a, b, c, d, e);
    SliceOfPrefix(s, u, a, b);
    SliceOfPrefix(s, u, c, d);
    MatchShape(s, a, b, c, d, e);
    MatchShape(u, a, b, c, d, e);
  }

  /** `Match` spelled out from the places its scans stop. */
  lemma MatchShape(s: string, a: nat, b: nat, c: nat, d: nat, e: nat)
    requires a == SkipSpaces(s, 0) && b == SkipDigits(s, a) && a < b && c == SkipSpaces(s, b)
    requires d == PrefixEnd(s, c) && d < |s| && e == if IsByteMark(s[d]) then d + 1 else d
    ensures Match(s) == Some(SizeMatch(s[a..b], if d == c then None else Some(s[c..d]), SkipSpaces(s, e)))
  {
  }

  lemma SliceOfPrefix(s: string, u: string, i: nat, j: nat)
    requires s <= u && i <= j <= |s|
    ensures u[i..j] == s[i..j]
  {
  }

  // ---------------------------------------------------------------------------
  // The sizes the script's help text and its users rely on.

  lemma DecimalTen()
    ensures AllDigits("10") && DecimalValue("10") == 10
  {
    assert "10"[..1] == "1" && "1"[..0] == "";
  }

  lemma ParseSizeKilo()
    ensures ParseSize("10K") == Success(10000)
  {
    var s := "10K";
    DecimalTen();
    assert s[0..2] == "10" && s[2] == 'K';
    assert Scale('K', false) == 1000;
    ParseSizeScaled(s, 0, 2, 2);
  }

  lemma ParseSizeKibibyte()
    ensures ParseSize("10KiB") == Success(10240)
  {
    var s := "10KiB";
    DecimalTen();
    assert s[0..2] == "10" && s[2] == 'K' && s[3] == 'i';
    assert Scale('K', true) == 1024;
    ParseSizeScaled(s, 0, 2, 2);
  }

  lemma ParseSizeMegabyte()
    ensures ParseSize("10MB") == Success(10000000)
  {
    var s := "10MB";
    DecimalTen();
    assert s[0..2] == "10" && s[2] == 'M' && s[3] == 'B';
    assert Scale('M', false) == 1000000;
    ParseSizeScaled(s, 0, 2, 2);
  }

  lemma ParseSizeSpacedGibibyte()
    ensures ParseSize(" 10 GiB x") == Success(10737418240)
  {
    var s := " 10 GiB x";
    DecimalTen();
    assert s[1..3] == "10" && s[4] == 'G' && s[5] == 'i';
    assert Scale('G', true) == 1073741824;
    ParseSizeScaled(s, 1, 3, 4);
  }

  /** Malformed sizes: no number at all, or a bare number with no unit (the script crashes on `None.lower()`). */
  lemma ParseSizeRejects()
    ensures ParseSize("abc") == Failure(NoMatch)
    ensures ParseSize("") == Failure(NoMatch)
    ensures ParseSize("10") == Failure(NoPrefix)
    ensures ParseSize("10b") == Failure(NoPrefix)
  {
    ParseSizeNoNumber("abc", 0);
    ParseSizeNoNumber("", 0);
    ParseSizeNoUnit("10", 0, 2, 2);
    ParseSizeNoUnit("10b", 0, 2, 2);
  }
}
