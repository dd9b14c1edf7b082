/** The JavaScript string built-ins the workshop code relies on: case mapping,
    `trim`, `includes`, `startsWith`, and the number parsers `Number(s)`,
    `parseFloat(s)` and `parseInt(s)`, plus `String(n)` and `padStart`. */
module Text {
  import opened Wrappers

  // ---------------------------------------------------------------------------
  // Character classes
  // ---------------------------------------------------------------------------

  /** ECMAScript LineTerminator: what the regular-expression `.` refuses. */
  predicate IsLineTerminator(c: char) {
    c == '\n' || c == '\r' || c == '\U{2028}' || c == '\U{2029}'
  }

  /** ECMAScript WhiteSpace or LineTerminator: what `trim` removes. */
  predicate IsSpace(c: char) {
    || IsLineTerminator(c)
    || c == ' ' || c == '\t' || c == '\U{000B}' || c == '\U{000C}'
    || c == '\U{00A0}' || c == '\U{1680}' || ('\U{2000}' <= c <= '\U{200A}')
    || c == '\U{202F}' || c == '\U{205F}' || c == '\U{3000}' || c == '\U{FEFF}'
  }

  predicate IsDecimalDigit(c: char) {
    '0' <= c <= '9'
  }

  /** Digit value of `c` in the given radix (10 or 16), or -1. */
  function DigitValue(c: char, radix: nat): (d: int)
    ensures -1 <= d < if radix == 16 then 16 else 10
    ensures IsDecimalDigit(c) ==> d == c as int - '0' as int
  {
    if IsDecimalDigit(c) then c as int - '0' as int
    else if radix == 16 && 'a' <= c <= 'f' then c as int - 'a' as int + 10
    else if radix == 16 && 'A' <= c <= 'F' then c as int - 'A' as int + 10
    else -1
  }

  predicate IsDigitIn(c: char, radix: nat) {
    DigitValue(c, radix) >= 0
  }

  // ---------------------------------------------------------------------------
  // Case mapping: ASCII and the Latin-1 letters whose other case is also
  // Latin-1 (Á, É, Í, Ñ, Ó, Ú, Ü, ...). ß, µ and ÿ, whose capitals lie outside
  // Latin-1 ("SS", U+039C, U+0178), are left unchanged by `UpperChar`.
  // ---------------------------------------------------------------------------

  function LowerChar(c: char): char {
    if 'A' <= c <= 'Z' || ('\U{00C0}' <= c <= '\U{00DE}' && c != '\U{00D7}') then (c as int + 32) as char
    else c
  }

  function UpperChar(c: char): char {
    if 'a' <= c <= 'z' || ('\U{00E0}' <= c <= '\U{00FE}' && c != '\U{00F7}') then (c as int - 32) as char
    else c
  }

  /** `s.toLowerCase()` */
  function Lower(s: string): (r: string)
    ensures |r| == |s|
    ensures forall i :: 0 <= i < |s| ==> r[i] == LowerChar(s[i])
  {
    seq(|s|, i requires 0 <= i < |s| => LowerChar(s[i]))
  }

  /** `s.toUpperCase()` */
  function Upper(s: string): (r: string)
    ensures |r| == |s|
    ensures forall i :: 0 <= i < |s| ==> r[i] == UpperChar(s[i])
  {
    seq(|s|, i requires 0 <= i < |s| => UpperChar(s[i]))
  }

  /** Upper-casing keeps white space as it is and is idempotent. */
  lemma UpperCharKeepsSpaces(c: char)
    ensures IsSpace(UpperChar(c)) == IsSpace(c)
    ensures UpperChar(UpperChar(c)) == UpperChar(c)
  {
  }

  // ---------------------------------------------------------------------------
  // Substrings
  // ---------------------------------------------------------------------------

  predicate OccursAt(s: string, sub: string, i: int) {
    0 <= i && i + |sub| <= |s| && s[i..i + |sub|] == sub
  }

  /** `s.startsWith(p)` */
  predicate StartsWith(s: string, p: string) {
    |p| <= |s| && s[..|p|] == p
  }

  /** `s.includes(sub)` */
  predicate Contains(s: string, sub: string) {
    exists i | 0 <= i <= |s| - |sub| :: OccursAt(s, sub, i)
  }

  /** `s.includes(sub)` on the lower-cased text: the keyword test of the classifiers. */
  predicate Mentions(s: string, keyword: string) {
    Contains(Lower(s), keyword)
  }

  lemma ContainsAt(s: string, sub: string, i: int)
    requires OccursAt(s, sub, i)
    ensures Contains(s, sub)
  {
  }

  /** A keyword already in lower case is mentioned by itself. */
  lemma MentionsItself(keyword: string)
    requires forall i :: 0 <= i < |keyword| ==> LowerChar(keyword[i]) == keyword[i]
    ensures Mentions(keyword, keyword)
  {
    assert Lower(keyword) == keyword;
    ContainsAt(keyword, keyword, 0);
  }

  // ---------------------------------------------------------------------------
  // trim
  // ---------------------------------------------------------------------------

  function TrimStart(s: string): (r: string)
    ensures |r| <= |s| && r == s[|s| - |r|..]
    ensures r == [] || !IsSpace(r[0])
    ensures forall k :: 0 <= k < |s| - |r| ==> IsSpace(s[k])
  {
    if |s| > 0 && IsSpace(s[0]) then TrimStart(s[1..]) else s
  }

  function TrimEnd(s: string): (r: string)
    ensures |r| <= |s| && r == s[..|r|]
    ensures r == [] || !IsSpace(r[|r| - 1])
    ensures forall k :: |r| <= k < |s| ==> IsSpace(s[k])
  {
    if |s| > 0 && IsSpace(s[|s| - 1]) then TrimEnd(s[..|s| - 1]) else s
  }

  predicate IsTrimmed(s: string) {
    |s| == 0 || (!IsSpace(s[0]) && !IsSpace(s[|s| - 1]))
  }

  /** `s.trim()`: the longest slice of `s` that neither starts nor ends with white space. */
  function Trim(s: string): (r: string)
    ensures IsTrimmed(r)
    ensures |r| <= |s|
  {
    TrimEnd(TrimStart(s))
  }

  lemma TrimStartAllSpace(w: string)
    requires forall k :: 0 <= k < |w| ==> IsSpace(w[k])
    ensures TrimStart(w) == []
  {
  }

  lemma {:induction false} TrimEndSpaceSuffix(t: string, w: string)
    requires t == [] || !IsSpace(t[|t| - 1])
    requires forall k :: 0 <= k < |w| ==> IsSpace(w[k])
    ensures TrimEnd(t + w) == t
    decreases |w|
  {
    if w == [] {
      assert t + w == t;
    } else {
      var u := t + w;
      assert u[..|u| - 1] == t + w[..|w| - 1];
      TrimEndSpaceSuffix(t, w[..|w| - 1]);
    }
  }

  /** Trimming a trimmed text followed only by white space gives the text back. */
  lemma TrimDropsTrailingSpace(t: string, w: string)
    requires IsTrimmed(t)
    requires forall k :: 0 <= k < |w| ==> IsSpace(w[k])
    ensures Trim(t + w) == t
  {
    if t == [] {
      assert t + w == w;
      TrimStartAllSpace(w);
    } else {
      assert TrimStart(t + w) == t + w;
      TrimEndSpaceSuffix(t, w);
    }
  }

  lemma {:induction false} TrimStartSpacePrefix(w: string, t: string)
    requires t == [] || !IsSpace(t[0])
    requires forall k :: 0 <= k < |w| ==> IsSpace(w[k])
    ensures TrimStart(w + t) == t
    decreases |w|
  {
    if w == [] {
      assert w + t == t;
    } else {
      assert (w + t)[1..] == w[1..] + t;
      TrimStartSpacePrefix(w[1..], t);
    }
  }

  /** Trimming white space followed by a trimmed text gives the text back. */
  lemma TrimDropsLeadingSpace(w: string, t: string)
    requires IsTrimmed(t)
    requires forall k :: 0 <= k < |w| ==> IsSpace(w[k])
    ensures Trim(w + t) == t
  {
    TrimStartSpacePrefix(w, t);
    TrimOfTrimmed(t);
  }

  lemma TrimOfTrimmed(t: string)
    requires IsTrimmed(t)
    ensures Trim(t) == t
  {
    assert t + [] == t;
    TrimDropsTrailingSpace(t, []);
  }

  // ---------------------------------------------------------------------------
  // Digit strings
  // ---------------------------------------------------------------------------

  /** End of the run of radix digits that starts at `i`. */
  function DigitRunEnd(s: string, i: nat, radix: nat): (j: nat)
    requires i <= |s|
    ensures i <= j <= |s|
    ensures forall k :: i <= k < j ==> IsDigitIn(s[k], radix)
    ensures j == |s| || !IsDigitIn(s[j], radix)
    decreases |s| - i
  {
    if i < |s| && IsDigitIn(s[i], radix) then DigitRunEnd(s, i + 1, radix) else i
  }

  /** Value of a digit string, most significant digit first. */
  function DigitsValue(s: string, radix: nat): nat
    requires forall k :: 0 <= k < |s| ==> IsDigitIn(s[k], radix)
  {
    if s == [] then 0
    else
      assert IsDigitIn(s[|s| - 1], radix);
      DigitsValue(s[..|s| - 1], radix) * radix + DigitValue(s[|s| - 1], radix)
  }

  /** Value of the digits after a decimal point, 0.d1d2…: each digit counts a
      tenth of the one before it. */
  function FractionValue(s: string): real
    requires forall k :: 0 <= k < |s| ==> IsDigitIn(s[k], 10)
  {
    if s == [] then 0.0
    else
      assert IsDigitIn(s[0], 10);
      (DigitValue(s[0], 10) as real + FractionValue(s[1..])) / 10.0
  }

  function DigitChar(d: nat): (c: char)
    requires d < 10
    ensures IsDecimalDigit(c) && DigitValue(c, 10) == d
  {
    ('0' as int + d) as char
  }

  /** `String(n)` for a non-negative integer: its shortest decimal form. */
  function DecimalString(n: nat): (s: string)
    ensures |s| >= 1
    ensures forall k :: 0 <= k < |s| ==> IsDecimalDigit(s[k])
    ensures n >= 10 ==> |s| >= 2
  {
    if n < 10 then [DigitChar(n)] else DecimalString(n / 10) + [DigitChar(n % 10)]
  }

  /** `s.padStart(width, c)` */
  function PadStart(s: string, width: nat, c: char): (r: string)
    ensures |r| == if |s| >= width then |s| else width
    ensures r[|r| - |s|..] == s
    ensures forall k :: 0 <= k < |r| - |s| ==> r[k] == c
  {
    if |s| >= width then s else seq(width - |s|, _ => c) + s
  }

  lemma {:induction false} DecimalStringValue(n: nat)
    ensures DigitsValue(DecimalString(n), 10) == n
  {
    if n >= 10 {
      var s := DecimalString(n);
      assert s[..|s| - 1] == DecimalString(n / 10);
      DecimalStringValue(n / 10);
    }
  }

  /** Leading zeros do not change the value of a digit string. */
  lemma {:induction false} LeadingZerosValue(z: string, s: string, radix: nat)
    requires forall k :: 0 <= k < |z| ==> z[k] == '0'
    requires forall k :: 0 <= k < |s| ==> IsDigitIn(s[k], radix)
    ensures forall k :: 0 <= k < |z + s| ==> IsDigitIn((z + s)[k], radix)
    ensures DigitsValue(z + s, radix) == DigitsValue(s, radix)
    decreases |s|
  {
    var u := z + s;
    assert forall k :: 0 <= k < |u| ==> IsDigitIn(u[k], radix) by {
      forall k | 0 <= k < |u| ensures IsDigitIn(u[k], radix) {
        if k < |z| { assert u[k] == '0'; } else { assert u[k] == s[k - |z|]; }
      }
    }
    if |s| == 0 {
      assert u == z;
      ZerosValue(z, radix);
    } else {
      assert u[..|u| - 1] == z + s[..|s| - 1];
      LeadingZerosValue(z, s[..|s| - 1], radix);
    }
  }

  /** A string of zeros is worth nothing. */
  lemma {:induction false} ZerosValue(z: string, radix: nat)
    requires forall k :: 0 <= k < |z| ==> z[k] == '0'
    ensures forall k :: 0 <= k < |z| ==> IsDigitIn(z[k], radix)
    ensures DigitsValue(z, radix) == 0
    decreases |z|
  {
    if |z| > 0 {
      ZerosValue(z[..|z| - 1], radix);
      assert z[|z| - 1] == '0';
    }
  }

  // ---------------------------------------------------------------------------
  // Math.round
  // ---------------------------------------------------------------------------

  /** `Math.round(x)`: the nearest integer, halves rounded up. */
  function Round(x: real): (n: int)
    ensures x - 0.5 < n as real <= x + 0.5
  {
    (x + 0.5).Floor
  }

  /** A share `part / whole` as a rounded percentage stays within 0..100. */
  lemma RoundedPercentBounds(part: int, whole: int)
    requires 0 <= part <= whole && whole > 0
    ensures 0 <= Round(part as real / whole as real * 100.0) <= 100
  {
    var q := part as real / whole as real;
    assert q * whole as real == part as real;
    assert 0.0 <= q <= 1.0;
  }

  /** What is left of 100 percent after the share `part / whole`: a percentage,
      and the full 100 exactly when the part is empty. */
  lemma ComplementPercent(part: int, whole: int)
    requires 0 <= part <= whole && whole > 0
    ensures var q := 100.0 - part as real / whole as real * 100.0;
      0.0 <= q <= 100.0 && (q == 100.0 <==> part == 0)
  {
    var p, w := part as real, whole as real;
    var share := p / w;
    assert share * w == p;
    assert 0.0 <= share <= 1.0;
    if share == 0.0 {
      assert p == 0.0;
    }
  }

  /** The whole as a share of itself is exactly 100 percent. */
  lemma RoundedWholePercent(whole: int)
    requires whole > 0
    ensures Round(whole as real / whole as real * 100.0) == 100
  {
    var w := whole as real;
    var q := w / w;
    assert q * w == w;
    assert (q - 1.0) * w == 0.0;
    assert q == 1.0;
  }

  // ---------------------------------------------------------------------------
  // Number(s), parseFloat(s), parseInt(s)
  // ---------------------------------------------------------------------------

  /** A numeric prefix: its value and how many characters it took. */
  datatype Scanned = Scanned(value: real, length: nat)

  /** The longest prefix of `s` of the form [+-]? digits [. digits?] or [+-]? . digits
      (a StrDecimalLiteral without exponent), as `parseFloat` and `Number` read it. */
  function ScanDecimal(s: string): (r: Option<Scanned>)
    ensures r.Some? ==> 0 < r.value.length <= |s|
  {
    var signLen := if 0 < |s| && (s[0] == '+' || s[0] == '-') then 1 else 0;
    var a := DigitRunEnd(s, signLen, 10);
    var hasDot := a < |s| && s[a] == '.';
    var b := if hasDot then DigitRunEnd(s, a + 1, 10) else a;
    if b <= signLen + (if hasDot then 1 else 0) then None
    else
      var intPart := DigitsValue(s[signLen..a], 10) as real;
      var frac := if hasDot then FractionValue(s[a + 1..b]) else 0.0;
      var magnitude := intPart + frac;
      Some(Scanned(if signLen == 1 && s[0] == '-' then -magnitude else magnitude, b))
  }

  /** `Number(s)` on a string: white space around is ignored, the empty string is 0,
      anything that is not wholly a decimal literal is NaN (None). */
  function ToNumber(s: string): (r: Option<real>)
    ensures |Trim(s)| == 0 ==> r == Some(0.0)
  {
    var t := Trim(s);
    if |t| == 0 then Some(0.0)
    else match ScanDecimal(t)
      case Some(sc) => if sc.length == |t| then Some(sc.value) else None
      case None => None
  }

  /** A trimmed string that scans whole is the number it scans to. */
  lemma ToNumberWhole(t: string, v: real)
    requires |t| > 0 && IsTrimmed(t)
    requires ScanDecimal(t) == Some(Scanned(v, |t|))
    ensures ToNumber(t) == Some(v)
  {
    TrimOfTrimmed(t);
  }

  /** A run of decimal digits scans whole, to its value. */
  lemma ScanDigits(d: string)
    requires |d| > 0
    requires forall k :: 0 <= k < |d| ==> IsDecimalDigit(d[k])
    ensures forall k :: 0 <= k < |d| ==> IsDigitIn(d[k], 10)
    ensures ScanDecimal(d) == Some(Scanned(DigitsValue(d, 10) as real, |d|))
  {
    assert !(d[0] == '+' || d[0] == '-');
    var a := DigitRunEnd(d, 0, 10);
    assert a == |d|;
    assert d[0..a] == d;
  }

  /** `parseFloat(s)`: leading white space skipped, the longest decimal prefix read,
      NaN (None) when there is none. */
  function ParseFloat(s: string): (r: Option<real>)
    ensures ScanDecimal(TrimStart(s)).None? ==> r.None?
  {
    match ScanDecimal(TrimStart(s))
    case Some(sc) => Some(sc.value)
    case None => None
  }

  /** White space in front of a string that does not start with white space is all `TrimStart` removes. */
  lemma {:induction false} TrimStartSpaces(ws: string, t: string)
    requires forall k :: 0 <= k < |ws| ==> IsSpace(ws[k])
    requires t == [] || !IsSpace(t[0])
    ensures TrimStart(ws + t) == t
    decreases |ws|
  {
    if ws == [] {
      assert ws + t == t;
    } else {
      assert (ws + t)[1..] == ws[1..] + t;
      TrimStartSpaces(ws[1..], t);
    }
  }

  /** A run of decimal digits after leading white space parses to its value. */
  lemma ParseFloatDigits(ws: string, d: string)
    requires forall k :: 0 <= k < |ws| ==> IsSpace(ws[k])
    requires |d| > 0
    requires forall k :: 0 <= k < |d| ==> IsDecimalDigit(d[k])
    ensures forall k :: 0 <= k < |d| ==> IsDigitIn(d[k], 10)
    ensures ParseFloat(ws + d) == Some(DigitsValue(d, 10) as real)
  {
    assert IsDecimalDigit(d[0]);
    TrimStartSpaces(ws, d);
    ScanDigits(d);
  }

  /** `parseInt(s)` with no radix: leading white space, an optional sign, a `0x`/`0X`
      prefix selecting radix 16, then the longest run of digits; NaN (None) if empty. */
  function ParseInt(s: string): (r: Option<int>)
  {
    var t := TrimStart(s);
    var signLen := if 0 < |t| && (t[0] == '+' || t[0] == '-') then 1 else 0;
    var hex := HexPrefixAt(t, signLen);
    var v := ParseDigitRun(t, if hex then signLen + 2 else signLen, if hex then 16 else 10);
    if signLen == 1 && t[0] == '-' && v.Some? then Some(-v.value) else v
  }

  predicate HexPrefixAt(t: string, i: nat) {
    i + 2 <= |t| && t[i] == '0' && (t[i + 1] == 'x' || t[i + 1] == 'X')
  }

  /** The value of the longest run of radix digits from `from`, None if the run is empty. */
  function ParseDigitRun(t: string, from: nat, radix: nat): (r: Option<int>)
    requires from <= |t|
  {
    var to := DigitRunEnd(t, from, radix);
    if to == from then None else Some(DigitsValue(t[from..to], radix))
  }

  /** On a plain decimal numeral `parseInt` is its value. */
  lemma ParseIntDecimal(p: string)
    requires |p| >= 1
    requires forall k :: 0 <= k < |p| ==> IsDecimalDigit(p[k])
    ensures forall k :: 0 <= k < |p| ==> IsDigitIn(p[k], 10)
    ensures ParseInt(p) == Some(DigitsValue(p, 10))
  {
    assert !IsSpace(p[0]);
    assert TrimStart(p) == p;
    assert ParseInt(p) == ParseDigitRun(p, 0, 10);
    assert DigitRunEnd(p, 0, 10) == |p|;
    assert p[0..|p|] == p;
  }

  /** `parseInt` reads back a zero-padded decimal numeral exactly. */
  lemma PaddedDigits(d: string, width: nat)
    requires forall k :: 0 <= k < |d| ==> IsDecimalDigit(d[k])
    ensures forall k :: 0 <= k < |PadStart(d, width, '0')| ==> IsDecimalDigit(PadStart(d, width, '0')[k])
  {
    var p := PadStart(d, width, '0');
    forall k | 0 <= k < |p| ensures IsDecimalDigit(p[k]) {
      if k >= |p| - |d| { assert p[k] == p[|p| - |d|..][k - (|p| - |d|)]; }
    }
  }

  lemma ParseIntPadded(n: nat, width: nat)
    ensures ParseInt(PadStart(DecimalString(n), width, '0')) == Some(n)
  {
    var d := DecimalString(n);
    var p := PadStart(d, width, '0');
    var z := p[..|p| - |d|];
    assert p == z + d;
    PaddedDigits(d, width);
    ParseIntDecimal(p);
    LeadingZerosValue(z, d, 10);
    DecimalStringValue(n);
  }
}
