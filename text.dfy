/** The string operations of Python's `str` that the translators use:
    `strip`, `lower`, `upper`, `startswith`, `split`, `str(int)`,
    `int(str)` and the `{:0Nd}` format.  Characters are Unicode scalar
    values; case mapping and digits cover ASCII only.  `int(str)` accepts
    surrounding white space, a sign and single underscores between
    digits. */
module Text {
  import opened Wrappers

  /** The characters for which Python's `str.isspace` holds; these are
      also the characters matched by `\s` in a `str` regular expression. */
  predicate IsSpace(c: char) {
    c == ' ' || (9 <= c as int <= 13) || (0x1C <= c as int <= 0x1F)
    || c as int == 0x85 || c as int == 0xA0 || c as int == 0x1680
    || (0x2000 <= c as int <= 0x200A) || c as int == 0x2028 || c as int == 0x2029
    || c as int == 0x202F || c as int == 0x205F || c as int == 0x3000
  }

  /** The first position at or after `i` that is not white space, or
      the end of `s`. */
  function SpaceRunEnd(s: string, i: nat): (j: nat)
    requires i <= |s|
    ensures i <= j <= |s|
    ensures j < |s| ==> !IsSpace(s[j])
    decreases |s| - i
  {
    if i < |s| && IsSpace(s[i]) then SpaceRunEnd(s, i + 1) else i
  }

  /** Everything skipped from `i` up to the first non-space is white
      space. */
  lemma {:induction false} SpaceRunEndSkipsSpace(s: string, i: nat)
    requires i <= |s|
    ensures forall k :: i <= k < SpaceRunEnd(s, i) ==> IsSpace(s[k])
    decreases |s| - i
  {
    if i < |s| && IsSpace(s[i]) {
      SpaceRunEndSkipsSpace(s, i + 1);
    }
  }

  /** The position just after the last non-space before `j`, or 0. */
  function SpaceRunStart(s: string, j: nat): (i: nat)
    requires j <= |s|
    ensures i <= j
    ensures i > 0 ==> !IsSpace(s[i - 1])
  {
    if j > 0 && IsSpace(s[j - 1]) then SpaceRunStart(s, j - 1) else j
  }

  /** Everything skipped back from `j` to the last non-space is white
      space. */
  lemma {:induction false} SpaceRunStartSkipsSpace(s: string, j: nat)
    requires j <= |s|
    ensures forall k :: SpaceRunStart(s, j) <= k < j ==> IsSpace(s[k])
  {
    if j > 0 && IsSpace(s[j - 1]) {
      SpaceRunStartSkipsSpace(s, j - 1);
    }
  }

  /** `s.lstrip()`: drops the leading white space. */
  function StripLeft(s: string): (r: string)
    ensures |r| <= |s| && r == s[|s| - |r|..]
    ensures r != [] ==> !IsSpace(r[0])
  {
    s[SpaceRunEnd(s, 0)..]
  }

  /** What `s.lstrip()` drops is white space. */
  lemma StripLeftDropsSpace(s: string)
    ensures forall i :: 0 <= i < |s| - |StripLeft(s)| ==> IsSpace(s[i])
  {
    SpaceRunEndSkipsSpace(s, 0);
  }

  /** `s.strip()`: the longest infix of `s` with no white space at
      either end. */
  function Strip(s: string): (r: string)
    ensures |r| <= |s|
    ensures r != [] ==> !IsSpace(r[0]) && !IsSpace(r[|r| - 1])
  {
    var i, j := SpaceRunEnd(s, 0), SpaceRunStart(s, |s|);
    if i < j then s[i..j] else []
  }

  /** `s.strip()` is empty exactly when `s` is all white space. */
  lemma StripEmptyIffSpace(s: string)
    ensures (forall i :: 0 <= i < |s| ==> IsSpace(s[i])) <==> Strip(s) == []
  {
    SpaceRunEndSkipsSpace(s, 0);
    SpaceRunStartSkipsSpace(s, |s|);
    forall k | 0 <= k < |s| && !IsSpace(s[k])
      ensures Strip(s) != []
    {
      assert SpaceRunEnd(s, 0) <= k < SpaceRunStart(s, |s|);
    }
  }

  /** `s.strip()` is `s.rstrip()` followed by `s.lstrip()`: the infix
      kept is what is left after dropping both runs of white space. */
  lemma StripBothEnds(s: string)
    ensures Strip(s) != [] ==> Strip(s) == s[SpaceRunEnd(s, 0)..SpaceRunStart(s, |s|)]
    ensures forall k :: 0 <= k < SpaceRunEnd(s, 0) ==> IsSpace(s[k])
    ensures forall k :: SpaceRunStart(s, |s|) <= k < |s| ==> IsSpace(s[k])
  {
    SpaceRunEndSkipsSpace(s, 0);
    SpaceRunStartSkipsSpace(s, |s|);
  }

  /** A string whose ends are not white space is its own strip. */
  lemma StripUnchanged(s: string)
    requires s != [] ==> !IsSpace(s[0]) && !IsSpace(s[|s| - 1])
    ensures Strip(s) == s
  {
  }

  function LowerChar(c: char): char {
    if 'A' <= c <= 'Z' then (c as int + 32) as char else c
  }

  function UpperChar(c: char): char {
    if 'a' <= c <= 'z' then (c as int - 32) as char else c
  }

  /** `s.lower()` (ASCII letters). */
  function Lower(s: string): (r: string)
    ensures |r| == |s| && forall i :: 0 <= i < |s| ==> r[i] == LowerChar(s[i])
  {
    seq(|s|, i requires 0 <= i < |s| => LowerChar(s[i]))
  }

  /** `s.upper()` (ASCII letters). */
  function Upper(s: string): (r: string)
    ensures |r| == |s| && forall i :: 0 <= i < |s| ==> r[i] == UpperChar(s[i])
  {
    seq(|s|, i requires 0 <= i < |s| => UpperChar(s[i]))
  }

  /** `s.startswith(prefix)`. */
  predicate StartsWith(s: string, prefix: string) {
    |prefix| <= |s| && s[..|prefix|] == prefix
  }

  /** `prefix in s` done character by character: does `s` contain `t`? */
  predicate Contains(s: string, t: string)
  {
    StartsWith(s, t) || (s != [] && Contains(s[1..], t))
  }

  /** The first word of `s.split()`, or None when `s.split()` is empty. */
  function FirstWord(s: string): (r: Option<string>)
    ensures r.None? <==> forall i :: 0 <= i < |s| ==> IsSpace(s[i])
    ensures r.Some? ==> r.value != [] && (forall i :: 0 <= i < |r.value| ==> !IsSpace(r.value[i]))
    ensures r.Some? ==> StartsWith(StripLeft(s), r.value)
    ensures r.Some? ==> |r.value| == |StripLeft(s)| || IsSpace(StripLeft(s)[|r.value|])
  {
    StripLeftDropsSpace(s);
    var t := StripLeft(s);
    if t == [] then None else Some(Word(t))
  }

  /** The longest prefix of `s` containing no white space. */
  function Word(s: string): (r: string)
    ensures |r| <= |s| && r == s[..|r|]
    ensures forall i :: 0 <= i < |r| ==> !IsSpace(r[i])
    ensures |r| < |s| ==> IsSpace(s[|r|])
  {
    if s == [] || IsSpace(s[0]) then [] else [s[0]] + Word(s[1..])
  }

  predicate IsUpperLetter(c: char) {
    'A' <= c <= 'Z'
  }

  predicate IsDigit(c: char) {
    '0' <= c <= '9'
  }

  predicate AllDigits(s: string) {
    forall i :: 0 <= i < |s| ==> IsDigit(s[i])
  }

  function DigitValue(c: char): nat
    requires IsDigit(c)
  {
    c as int - '0' as int
  }

  function DigitChar(d: nat): (c: char)
    requires d < 10
    ensures IsDigit(c) && DigitValue(c) == d
  {
    ('0' as int + d) as char
  }

  /** The number a string of decimal digits denotes (leading zeros allowed). */
  function DigitsValue(s: string): nat
    requires AllDigits(s)
  {
    if s == [] then 0 else 10 * DigitsValue(s[..|s| - 1]) + DigitValue(s[|s| - 1])
  }

  /** One more digit multiplies the value so far by ten and adds the
      digit. */
  lemma DigitAppended(s: string, c: char)
    requires AllDigits(s) && IsDigit(c)
    ensures AllDigits(s + [c]) && DigitsValue(s + [c]) == 10 * DigitsValue(s) + DigitValue(c)
  {
    assert (s + [c])[..|s|] == s;
  }

  function Pow10(n: nat): (r: nat)
    ensures r >= 1
  {
    if n == 0 then 1 else 10 * Pow10(n - 1)
  }

  /** Reading two digit strings one after the other shifts the first by
      the length of the second. */
  lemma {:induction false} DigitsValueAppend(a: string, b: string)
    requires AllDigits(a) && AllDigits(b)
    ensures AllDigits(a + b)
    ensures DigitsValue(a + b) == DigitsValue(a) * Pow10(|b|) + DigitsValue(b)
  {
    if b == [] {
      assert a + b == a;
    } else {
      var b' := b[..|b| - 1];
      assert (a + b)[..|a + b| - 1] == a + b';
      assert (a + b)[|a + b| - 1] == b[|b| - 1];
      DigitsValueAppend(a, b');
      var x, p, y, d := DigitsValue(a), Pow10(|b'|), DigitsValue(b'), DigitValue(b[|b| - 1]);
      assert DigitsValue(a + b) == 10 * (x * p + y) + d;
      assert Pow10(|b|) == 10 * p;
      assert DigitsValue(b) == 10 * y + d;
      ShiftIdentity(x, p, y, d);
    }
  }

  lemma ShiftIdentity(x: int, p: int, y: int, d: int)
    ensures 10 * (x * p + y) + d == x * (10 * p) + (10 * y + d)
  {
  }

  /** Leading zeros do not change the number. */
  lemma {:induction false} DigitsValueZeros(n: nat, s: string)
    requires AllDigits(s)
    ensures AllDigits(Zeros(n) + s) && DigitsValue(Zeros(n) + s) == DigitsValue(s)
  {
    DigitsValueAppend(Zeros(n), s);
    ZerosValue(n);
    assert DigitsValue(Zeros(n)) * Pow10(|s|) == 0;
  }

  lemma {:induction false} ZerosValue(n: nat)
    ensures AllDigits(Zeros(n)) && DigitsValue(Zeros(n)) == 0
  {
    if n > 0 {
      assert Zeros(n)[..n - 1] == Zeros(n - 1);
      ZerosValue(n - 1);
    }
  }

  function Zeros(n: nat): (r: string)
    ensures |r| == n && forall i :: 0 <= i < n ==> r[i] == '0'
  {
    if n == 0 then [] else Zeros(n - 1) + ['0']
  }

  /** `str(n)` for a natural number: its shortest decimal digits. */
  function DecimalString(n: nat): (r: string)
    ensures r != [] && AllDigits(r)
  {
    if n < 10 then [DigitChar(n)] else DecimalString(n / 10) + [DigitChar(n % 10)]
  }

  /** Reading back the digits of `str(n)` gives `n`. */
  lemma {:induction false} DecimalStringValue(n: nat)
    ensures DigitsValue(DecimalString(n)) == n
  {
    if n >= 10 {
      var s := DecimalString(n);
      assert s[..|s| - 1] == DecimalString(n / 10);
      DecimalStringValue(n / 10);
    }
  }

  /** `str(n)` has at most `w` digits when `n < 10^w`. */
  lemma {:induction false} DecimalStringLength(n: nat, w: nat)
    requires w >= 1 && n < Pow10(w)
    ensures |DecimalString(n)| <= w
  {
    if n >= 10 {
      DecimalStringLength(n / 10, w - 1);
    }
  }

  /** `str(i)` for any Python int. */
  function IntText(i: int): string {
    if i < 0 then "-" + DecimalString(-i) else DecimalString(i)
  }

  /** `"{:0<width>d}".format(i)`: the sign (if negative) followed by the
      digits, padded with zeros after the sign up to `width` characters. */
  function FormatZeroPadded(i: int, width: nat): (r: string)
    ensures i >= 0 ==> AllDigits(r) && DigitsValue(r) == i
    ensures i >= 0 ==> |r| == if |DecimalString(i)| < width then width else |DecimalString(i)|
  {
    var sign := if i < 0 then "-" else "";
    var digits := DecimalString(if i < 0 then -i else i);
    var pad := if |sign| + |digits| < width then width - |sign| - |digits| else 0;
    DigitsValueZeros(pad, digits);
    DecimalStringValue(if i < 0 then -i else i);
    assert i >= 0 ==> sign + Zeros(pad) + digits == Zeros(pad) + digits;
    sign + Zeros(pad) + digits
  }

  /** The digits of an integer literal as `int()` reads them: one digit
      or more, where a single underscore may stand between two digits. */
  predicate GroupedDigits(s: string)
    decreases |s|
  {
    |s| >= 1 && IsDigit(s[|s| - 1]) &&
    (|s| == 1 || GroupedDigits(s[..|s| - 1]) ||
     (|s| >= 3 && s[|s| - 2] == '_' && GroupedDigits(s[..|s| - 2])))
  }

  /** Grouped digits start and end with a digit. */
  lemma {:induction false} GroupedEnds(s: string)
    requires GroupedDigits(s)
    ensures IsDigit(s[0]) && IsDigit(s[|s| - 1])
    decreases |s|
  {
    if |s| > 1 {
      if GroupedDigits(s[..|s| - 1]) {
        GroupedEnds(s[..|s| - 1]);
      } else {
        GroupedEnds(s[..|s| - 2]);
      }
    }
  }

  /** The number grouped digits denote, the underscores ignored. */
  function GroupedValue(s: string): nat
    requires GroupedDigits(s)
    decreases |s|
  {
    if |s| == 1 then DigitValue(s[0])
    else if GroupedDigits(s[..|s| - 1]) then 10 * GroupedValue(s[..|s| - 1]) + DigitValue(s[|s| - 1])
    else 10 * GroupedValue(s[..|s| - 2]) + DigitValue(s[|s| - 1])
  }

  /** Plain digits are grouped digits with no underscore, and denote the
      same number. */
  lemma {:induction false} PlainGrouped(s: string)
    requires s != [] && AllDigits(s)
    ensures GroupedDigits(s) && GroupedValue(s) == DigitsValue(s)
    decreases |s|
  {
    if |s| > 1 {
      var init := s[..|s| - 1];
      assert AllDigits(init) by {
        forall i | 0 <= i < |init| ensures IsDigit(init[i]) {
          assert init[i] == s[i];
        }
      }
      PlainGrouped(init);
    }
  }

  /** Python's `int(s)` for a string: surrounding white space, an
      optional sign and decimal digits, single underscores allowed
      between them; None stands for the ValueError it raises otherwise. */
  function ParseInt(s: string): Option<int> {
    var t := Strip(s);
    if t == [] then None
    else if t[0] == '-' || t[0] == '+' then
      var d := t[1..];
      if GroupedDigits(d) then
        var n: int := GroupedValue(d);
        Some(if t[0] == '-' then -n else n)
      else None
    else if GroupedDigits(t) then Some(GroupedValue(t))
    else None
  }

  /** A plain string of digits parses to the number it denotes. */
  lemma ParseIntDigits(s: string)
    requires s != [] && AllDigits(s)
    ensures ParseInt(s) == Some(DigitsValue(s))
  {
    StripUnchanged(s);
    assert IsDigit(s[0]);
    PlainGrouped(s);
  }

  /** Underscores between digit groups are skipped; anywhere else they
      make the text unreadable. */
  lemma ParseIntUnderscores()
    ensures ParseInt("1_0") == Some(10)
    ensures ParseInt("1__0") == None
    ensures ParseInt("_10") == None
    ensures ParseInt("10_") == None
  {
    StripUnchanged("1_0");
    StripUnchanged("1__0");
    StripUnchanged("_10");
    StripUnchanged("10_");
    assert "1_0"[..1] == "1" && "1_0"[..2] == "1_" && "1_"[..1] == "1";
    assert !GroupedDigits("1_");
    assert GroupedDigits("1");
    assert GroupedValue("1_0") == 10;
    assert "1__0"[..3] == "1__" && "1__0"[..2] == "1_";
    assert !GroupedDigits("1__");
  }
}
