/** The string operations the engine borrows from Python's `str`, restricted
    to ASCII: `strip`, `upper`, `lower`, `isupper`, `isdigit`, `in`
    (substring), `replace(old, new, 1)`, and the decimal conversions `int`
    and `float` on the strings the console accepts. */
module Text {

  predicate IsUpperChar(c: char) { 'A' <= c <= 'Z' }

  predicate IsLowerChar(c: char) { 'a' <= c <= 'z' }

  predicate IsAlphaChar(c: char) { IsUpperChar(c) || IsLowerChar(c) }

  predicate IsDigitChar(c: char) { '0' <= c <= '9' }

  /** The ASCII characters `str.isspace` accepts: tab through carriage
      return, the four separators 0x1C-0x1F, and space. */
  predicate IsSpace(c: char) {
    ('\t' <= c <= '\r') || ('\U{1C}' <= c <= ' ')
  }

  function UpperChar(c: char): char {
    if IsLowerChar(c) then (c as int - 32) as char else c
  }

  function LowerChar(c: char): char {
    if IsUpperChar(c) then (c as int + 32) as char else c
  }

  /** `s.upper()`. */
  function Upper(s: string): string {
    seq(|s|, i requires 0 <= i < |s| => UpperChar(s[i]))
  }

  /** `s.lower()`. */
  function Lower(s: string): string {
    seq(|s|, i requires 0 <= i < |s| => LowerChar(s[i]))
  }

  /** Python's `str.isupper`: some cased character, and no lower-case one. */
  predicate PyIsUpper(s: string) {
    && (exists i :: 0 <= i < |s| && IsUpperChar(s[i]))
    && (forall i :: 0 <= i < |s| ==> !IsLowerChar(s[i]))
  }

  predicate HasAlpha(s: string) {
    exists i :: 0 <= i < |s| && IsAlphaChar(s[i])
  }

  predicate AllDigits(s: string) {
    forall i :: 0 <= i < |s| ==> IsDigitChar(s[i])
  }

  /** Python's `str.isdigit`: non-empty and digits only. */
  predicate PyIsDigit(s: string) {
    |s| > 0 && AllDigits(s)
  }

  /** `needle` occurs in `haystack` starting at position `i`. */
  predicate OccursAt(haystack: string, needle: string, i: int) {
    0 <= i <= |haystack| - |needle| && haystack[i..i + |needle|] == needle
  }

  /** `needle in haystack` for strings. */
  predicate Contains(haystack: string, needle: string) {
    exists i :: 0 <= i <= |haystack| - |needle| && OccursAt(haystack, needle, i)
  }

  /** `s.lstrip()`: the suffix left after removing leading whitespace. */
  function LStrip(s: string): (r: string)
    ensures |r| <= |s| && r == s[|s| - |r|..]
    ensures forall k :: 0 <= k < |s| - |r| ==> IsSpace(s[k])
    ensures |r| > 0 ==> !IsSpace(r[0])
  {
    if |s| > 0 && IsSpace(s[0]) then LStrip(s[1..]) else s
  }

  /** `s.rstrip()`: the prefix left after removing trailing whitespace. */
  function RStrip(s: string): (r: string)
    ensures |r| <= |s| && r == s[..|r|]
    ensures forall k :: |r| <= k < |s| ==> IsSpace(s[k])
    ensures |r| > 0 ==> !IsSpace(r[|r| - 1])
  {
    if |s| > 0 && IsSpace(s[|s| - 1]) then RStrip(s[..|s| - 1]) else s
  }

  /** `s.strip()`. */
  function Strip(s: string): string {
    RStrip(LStrip(s))
  }

  /** Whitespace is untouched by case mapping. */
  lemma CaseKeepsSpace(c: char)
    ensures IsSpace(UpperChar(c)) <==> IsSpace(c)
    ensures IsSpace(LowerChar(c)) <==> IsSpace(c)
  {
  }

  /** Leading whitespace is the same before and after lower-casing. */
  lemma {:induction false} LStripLower(s: string)
    ensures LStrip(Lower(s)) == Lower(LStrip(s))
    decreases |s|
  {
    if |s| > 0 {
      var m := Lower(s);
      CaseKeepsSpace(s[0]);
      assert m[0] == LowerChar(s[0]);
      if IsSpace(s[0]) {
        assert m[1..] == Lower(s[1..]);
        assert LStrip(m) == LStrip(Lower(s[1..]));
        assert LStrip(s) == LStrip(s[1..]);
        LStripLower(s[1..]);
      } else {
        assert LStrip(m) == m;
        assert LStrip(s) == s;
      }
    }
  }

  /** Trailing whitespace is the same before and after lower-casing. */
  lemma {:induction false} RStripLower(s: string)
    ensures RStrip(Lower(s)) == Lower(RStrip(s))
    decreases |s|
  {
    if |s| > 0 {
      CaseKeepsSpace(s[|s| - 1]);
      if IsSpace(s[|s| - 1]) {
        assert Lower(s)[..|s| - 1] == Lower(s[..|s| - 1]);
        RStripLower(s[..|s| - 1]);
      }
    }
  }

  lemma {:induction false} LStripUpper(s: string)
    ensures LStrip(Upper(s)) == Upper(LStrip(s))
    decreases |s|
  {
    if |s| > 0 {
      var m := Upper(s);
      CaseKeepsSpace(s[0]);
      assert m[0] == UpperChar(s[0]);
      if IsSpace(s[0]) {
        assert m[1..] == Upper(s[1..]);
        assert LStrip(m) == LStrip(Upper(s[1..]));
        assert LStrip(s) == LStrip(s[1..]);
        LStripUpper(s[1..]);
      } else {
        assert LStrip(m) == m;
        assert LStrip(s) == s;
      }
    }
  }

  lemma {:induction false} RStripUpper(s: string)
    ensures RStrip(Upper(s)) == Upper(RStrip(s))
    decreases |s|
  {
    if |s| > 0 {
      CaseKeepsSpace(s[|s| - 1]);
      if IsSpace(s[|s| - 1]) {
        assert Upper(s)[..|s| - 1] == Upper(s[..|s| - 1]);
        RStripUpper(s[..|s| - 1]);
      }
    }
  }

  /** Stripping and case mapping commute. */
  lemma StripCommutesWithCase(s: string)
    ensures Strip(Lower(s)) == Lower(Strip(s))
    ensures Strip(Upper(s)) == Upper(Strip(s))
  {
    LStripLower(s);
    RStripLower(LStrip(s));
    LStripUpper(s);
    RStripUpper(LStrip(s));
  }

  /** Upper-casing forgets any earlier case mapping, and so does
      lower-casing. */
  lemma CaseMappingAbsorbs(s: string)
    ensures Upper(Lower(s)) == Upper(s) && Upper(Upper(s)) == Upper(s)
    ensures Lower(Upper(s)) == Lower(s) && Lower(Lower(s)) == Lower(s)
  {
  }

  /** `t` spells `w` with any of its letters possibly upper-cased. */
  predicate SpellsIgnoringCase(t: string, w: string) {
    |t| == |w| && forall i :: 0 <= i < |t| ==> t[i] == w[i] || t[i] == UpperChar(w[i])
  }

  /** The strings that lower-case to a lower-case word are exactly its
      spellings with any letters upper-cased. */
  lemma LowerPreimage(t: string, w: string)
    requires forall i :: 0 <= i < |w| ==> IsLowerChar(w[i])
    ensures Lower(t) == w <==> SpellsIgnoringCase(t, w)
  {
    if Lower(t) == w {
      forall i | 0 <= i < |t| ensures t[i] == w[i] || t[i] == UpperChar(w[i]) {
        assert LowerChar(t[i]) == w[i];
      }
    }
    if SpellsIgnoringCase(t, w) {
      forall i | 0 <= i < |t| ensures Lower(t)[i] == w[i] {
      }
    }
  }

  /** A string of whitespace only. */
  predicate AllSpace(s: string) {
    forall i :: 0 <= i < |s| ==> IsSpace(s[i])
  }

  lemma {:induction false} LStripPadding(a: string, t: string)
    requires AllSpace(a)
    requires |t| > 0 ==> !IsSpace(t[0])
    ensures LStrip(a + t) == t
    decreases |a|
  {
    if |a| > 0 {
      assert (a + t)[1..] == a[1..] + t;
      LStripPadding(a[1..], t);
    } else {
      assert a + t == t;
    }
  }

  lemma {:induction false} RStripPadding(t: string, b: string)
    requires AllSpace(b)
    requires |t| > 0 ==> !IsSpace(t[|t| - 1])
    ensures RStrip(t + b) == t
    decreases |b|
  {
    if |b| > 0 {
      assert (t + b)[..|t + b| - 1] == t + b[..|b| - 1];
      RStripPadding(t, b[..|b| - 1]);
    } else {
      assert t + b == t;
    }
  }

  /** Whitespace around a text without whitespace at its ends is exactly
      what `strip` removes. */
  lemma StripPadded(a: string, t: string, b: string)
    requires AllSpace(a) && AllSpace(b)
    requires |t| > 0 && !IsSpace(t[0]) && !IsSpace(t[|t| - 1])
    ensures Strip(a + t + b) == t
  {
    assert a + t + b == a + (t + b);
    LStripPadding(a, t + b);
    RStripPadding(t, b);
  }

  /** `s.replace('.', '', 1)`: the first dot removed. */
  function RemoveFirstDot(s: string): string {
    if |s| == 0 then []
    else if s[0] == '.' then s[1..]
    else [s[0]] + RemoveFirstDot(s[1..])
  }

  /** The position of the first dot, or the length when there is none. */
  function DotIndex(s: string): (k: nat)
    ensures k <= |s|
    ensures forall j :: 0 <= j < k ==> s[j] != '.'
    ensures k < |s| ==> s[k] == '.'
  {
    if |s| == 0 || s[0] == '.' then 0 else 1 + DotIndex(s[1..])
  }

  /** Removing the first dot joins the text before it to the text after it. */
  lemma {:induction false} RemoveFirstDotSplits(s: string)
    ensures var k := DotIndex(s);
      RemoveFirstDot(s) == s[..k] + (if k < |s| then s[k + 1..] else [])
  {
    if |s| > 0 && s[0] != '.' {
      RemoveFirstDotSplits(s[1..]);
      var k := DotIndex(s[1..]);
      assert s[..k + 1] == [s[0]] + s[1..][..k];
      if k < |s[1..]| {
        assert s[k + 2..] == s[1..][k + 1..];
      }
    }
  }

  function DigitValue(c: char): nat
    requires IsDigitChar(c)
  {
    c as int - '0' as int
  }

  function DigitChar(d: nat): char
    requires d < 10
  {
    ('0' as int + d) as char
  }

  /** `int(s)` for a string of digits. */
  function DigitsValue(s: string): nat
    requires AllDigits(s)
  {
    if |s| == 0 then 0 else DigitsValue(s[..|s| - 1]) * 10 + DigitValue(s[|s| - 1])
  }

  /** `str(n)` for a natural number. */
  function Render(n: nat): (r: string)
    ensures PyIsDigit(r)
  {
    if n < 10 then [DigitChar(n)] else Render(n / 10) + [DigitChar(n % 10)]
  }

  /** `int(str(n)) == n`. */
  lemma {:induction false} RenderRoundTrip(n: nat)
    ensures DigitsValue(Render(n)) == n
  {
    var r := Render(n);
    if n >= 10 {
      RenderRoundTrip(n / 10);
      assert r[..|r| - 1] == Render(n / 10);
    }
  }

  /** Some character is a non-zero digit. */
  predicate HasNonZeroDigit(s: string) {
    exists i :: 0 <= i < |s| && '1' <= s[i] <= '9'
  }

  lemma HasNonZeroDigitConcat(a: string, b: string)
    ensures HasNonZeroDigit(a + b) <==> HasNonZeroDigit(a) || HasNonZeroDigit(b)
  {
    if HasNonZeroDigit(a + b) {
      var i :| 0 <= i < |a + b| && '1' <= (a + b)[i] <= '9';
      if i < |a| {
        assert a[i] == (a + b)[i];
      } else {
        assert b[i - |a|] == (a + b)[i];
      }
    }
    if HasNonZeroDigit(a) {
      var i :| 0 <= i < |a| && '1' <= a[i] <= '9';
      assert (a + b)[i] == a[i];
    }
    if HasNonZeroDigit(b) {
      var i :| 0 <= i < |b| && '1' <= b[i] <= '9';
      assert (a + b)[|a| + i] == b[i];
    }
  }

  /** A string of digits denotes a positive number exactly when one of its
      digits is not zero. */
  lemma {:induction false} DigitsPositive(s: string)
    requires AllDigits(s)
    ensures DigitsValue(s) > 0 <==> HasNonZeroDigit(s)
  {
    if |s| > 0 {
      var init := s[..|s| - 1];
      DigitsPositive(init);
      assert s == init + [s[|s| - 1]];
      HasNonZeroDigitConcat(init, [s[|s| - 1]]);
    }
  }

  function Pow10(n: nat): (p: nat)
    ensures p >= 1
  {
    if n == 0 then 1 else 10 * Pow10(n - 1)
  }

  /** The whole part of a number: the text before the first dot. */
  function WholePart(s: string): string {
    s[..DotIndex(s)]
  }

  /** The fraction part of a number: the text after the first dot. */
  function FractionPart(s: string): string {
    var k := DotIndex(s);
    if k < |s| then s[k + 1..] else []
  }

  /** Removing the first dot leaves the whole part followed by the
      fraction part, both digits when the result is. */
  lemma NumberParts(s: string)
    ensures RemoveFirstDot(s) == WholePart(s) + FractionPart(s)
    ensures AllDigits(RemoveFirstDot(s)) ==> AllDigits(WholePart(s)) && AllDigits(FractionPart(s))
  {
    RemoveFirstDotSplits(s);
    var w := WholePart(s);
    var f := FractionPart(s);
    var d := RemoveFirstDot(s);
    assert d == w + f;
    if AllDigits(d) {
      forall i | 0 <= i < |w| ensures IsDigitChar(w[i]) {
        assert w[i] == d[i];
      }
      forall i | 0 <= i < |f| ensures IsDigitChar(f[i]) {
        assert f[i] == d[|w| + i];
      }
    }
  }

  /** The dot is not a digit, so the parts hold the number's non-zero
      digits. */
  lemma NumberPartsNonZero(s: string)
    ensures HasNonZeroDigit(s) <==> HasNonZeroDigit(WholePart(s)) || HasNonZeroDigit(FractionPart(s))
  {
    var w := WholePart(s);
    var f := FractionPart(s);
    if DotIndex(s) < |s| {
      assert s == w + ['.'] + f;
      HasNonZeroDigitConcat(w + ['.'], f);
      HasNonZeroDigitConcat(w, ['.']);
    } else {
      assert s == w;
      assert f == [];
    }
  }

  /** `float(s)` for a string of digits with at most one dot: the digits
      before the first dot are the whole part, those after it the fraction. */
  function DecimalValue(s: string): real
    requires AllDigits(RemoveFirstDot(s))
  {
    NumberParts(s);
    var frac := FractionPart(s);
    DigitsValue(WholePart(s)) as real + DigitsValue(frac) as real / Pow10(|frac|) as real
  }

  lemma FractionSign(a: nat, p: nat)
    requires p >= 1
    ensures a as real / p as real >= 0.0
    ensures a as real / p as real > 0.0 <==> a > 0
  {
  }

  /** A digits-and-one-dot number is positive exactly when some digit is
      not zero. */
  lemma DecimalPositive(s: string)
    requires AllDigits(RemoveFirstDot(s))
    ensures DecimalValue(s) > 0.0 <==> HasNonZeroDigit(s)
  {
    NumberParts(s);
    NumberPartsNonZero(s);
    var w := WholePart(s);
    var f := FractionPart(s);
    DigitsPositive(w);
    DigitsPositive(f);
    FractionSign(DigitsValue(f), Pow10(|f|));
  }
}
