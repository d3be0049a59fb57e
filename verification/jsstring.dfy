/** The JavaScript string built-ins the core relies on: `trim`,
    `padStart` and `parseInt(s, 10)`, over strings as sequences of UTF-16
    code units (`char`). */
module JsString {
  import opened Optional
  import opened Digits

  /** WhiteSpace and LineTerminator code points, the characters `trim` and
      `parseInt` skip (ECMA-262, sections 12.2 and 12.3). */
  predicate IsWhiteSpace(c: char) {
    || c == '\t' || c == '\n' || c == '\U{000B}' || c == '\U{000C}' || c == '\r' || c == ' '
    || c == '\U{00A0}' || c == '\U{1680}' || ('\U{2000}' <= c <= '\U{200A}')
    || c == '\U{2028}' || c == '\U{2029}' || c == '\U{202F}' || c == '\U{205F}'
    || c == '\U{3000}' || c == '\U{FEFF}'
  }

  /** A string `trim` reduces to nothing. */
  predicate IsBlank(s: string) { forall i :: 0 <= i < |s| ==> IsWhiteSpace(s[i]) }

  /** `s` without its leading white space: a suffix of `s` that starts with
      a non-white-space character, cut after white space only. */
  function TrimStart(s: string): string {
    if s != [] && IsWhiteSpace(s[0]) then TrimStart(s[1..]) else s
  }

  /** What `TrimStart` drops is a blank prefix, and what it keeps does not start with white space. */
  lemma {:induction false} TrimStartShape(s: string)
    ensures var r := TrimStart(s);
      |r| <= |s| && r == s[|s| - |r|..] && IsBlank(s[..|s| - |r|]) && (r == [] || !IsWhiteSpace(r[0]))
  {
    if s != [] && IsWhiteSpace(s[0]) {
      TrimStartShape(s[1..]);
      var r := TrimStart(s[1..]);
      assert s[..|s| - |r|] == [s[0]] + s[1..][..|s| - 1 - |r|];
    }
  }

  /** `s` without its trailing white space. */
  function TrimEnd(s: string): string {
    if s != [] && IsWhiteSpace(s[|s| - 1]) then TrimEnd(s[..|s| - 1]) else s
  }

  /** What `TrimEnd` drops is a blank suffix, and what it keeps does not end with white space. */
  lemma {:induction false} TrimEndShape(s: string)
    ensures var r := TrimEnd(s);
      |r| <= |s| && r == s[..|r|] && IsBlank(s[|r|..]) && (r == [] || !IsWhiteSpace(r[|r| - 1]))
  {
    if s != [] && IsWhiteSpace(s[|s| - 1]) {
      TrimEndShape(s[..|s| - 1]);
      var r := TrimEnd(s[..|s| - 1]);
      assert s[|r|..] == s[..|s| - 1][|r|..] + [s[|s| - 1]];
    }
  }

  /** `String.prototype.trim`. */
  function Trim(s: string): string {
    TrimEnd(TrimStart(s))
  }

  /** A string trims to the empty string exactly when it is blank. */
  lemma TrimEmptyIffBlank(s: string)
    ensures Trim(s) == [] <==> IsBlank(s)
  {
    var t := TrimStart(s);
    TrimStartShape(s);
    TrimEndShape(t);
    if TrimEnd(t) == [] {
      assert t[|TrimEnd(t)|..] == t;
      assert t == [];
      assert s[..|s| - |t|] == s;
    }
  }

  /** The trimmed text neither starts nor ends with white space, and trimming it again changes nothing. */
  lemma TrimShape(s: string)
    ensures var r := Trim(s); r == [] || (!IsWhiteSpace(r[0]) && !IsWhiteSpace(r[|r| - 1]))
    ensures Trim(Trim(s)) == Trim(s)
  {
    var t := TrimStart(s);
    var r := TrimEnd(t);
    TrimStartShape(s);
    TrimEndShape(t);
    if r != [] {
      assert r[0] == t[0];
      assert TrimStart(r) == r;
      assert TrimEnd(r) == r;
    } else {
      assert Trim(r) == r;
    }
  }

  /** `s.padStart(width, [fill])`: never truncates, pads on the left only. */
  function PadStart(s: string, width: nat, fill: char): (r: string)
    ensures |r| == if |s| >= width then |s| else width
    ensures r[|r| - |s|..] == s
    ensures forall i :: 0 <= i < |r| - |s| ==> r[i] == fill
  {
    if |s| >= width then s else Repeat(fill, width - |s|) + s
  }

  /** Padding a digit string with zeros keeps its value. */
  lemma ZeroPaddedValue(d: string, width: nat)
    requires AllDigits(d)
    ensures AllDigits(PadStart(d, width, '0'))
    ensures DigitsValue(PadStart(d, width, '0')) == DigitsValue(d)
  {
    if |d| < width {
      assert PadStart(d, width, '0') == Zeros(width - |d|) + d;
      LeadingZerosValue(width - |d|, d);
    }
  }

  /** `String(n).padStart(2, "0")` for n below 100: the tens digit, then
      the units digit (`TwoDigitsPadded` shows it is the padded numeral). */
  function TwoDigits(n: nat): (r: string)
    requires n < 100
    ensures |r| == 2 && AllDigits(r) && DigitsValue(r) == n
  {
    var r := [DigitChar(n / 10), DigitChar(n % 10)];
    assert DigitValue(r[0]) == n / 10 && DigitValue(r[1]) == n % 10;
    assert r[..1][..0] == [] && r[..1][0] == r[0];
    assert DigitsValue(r[..1]) == n / 10;
    r
  }

  /** The two digits are the decimal numeral left-padded with zeros to width 2. */
  lemma TwoDigitsPadded(n: nat)
    requires n < 100
    ensures TwoDigits(n) == PadStart(NatToDecimal(n), 2, '0')
  {
    if n < 10 {
      assert Repeat('0', 1) == "0";
    } else {
      assert NatToDecimal(n / 10) == [DigitChar(n / 10)];
    }
  }

  function Repeat(c: char, k: nat): (r: string)
    ensures |r| == k && forall i :: 0 <= i < k ==> r[i] == c
  {
    if k == 0 then [] else [c] + Repeat(c, k - 1)
  }

  /** `parseInt(s, 10)`: skip leading white space, take an optional sign and
      the longest run of decimal digits after it; `None` stands for `NaN`
      (no digit at all). A negative zero is the integer 0 here. */
  function ParseInt(s: string): Option<int> {
    ParseSigned(TrimStart(s))
  }

  /** An optional sign, then the digits. */
  function ParseSigned(t: string): Option<int> {
    if t != [] && t[0] == '-' then
      var v :- ReadDigits(t[1..]);
      Some(0 - v as int)
    else if t != [] && t[0] == '+' then
      var v :- ReadDigits(t[1..]);
      Some(v as int)
    else
      var v :- ReadDigits(t);
      Some(v as int)
  }

  /** The value of the leading run of digits, if there is one. */
  function ReadDigits(body: string): Option<nat> {
    var n := DigitPrefixLen(body);
    if n == 0 then None else Some(DigitsValue(body[..n]))
  }

  /** `parseInt` reads back what `String(i)` renders, for integers written
      without an exponent. */
  lemma ParseIntDecimal(i: int)
    ensures ParseInt(IntToDecimal(i)) == Some(i)
  {
    if i < 0 {
      NatToDecimalValue(-i);
      ReadAllDigits(NatToDecimal(-i));
      ParseIntMinus(NatToDecimal(-i), -i);
    } else {
      NatToDecimalValue(i);
      ReadAllDigits(NatToDecimal(i));
      ParseIntDigits(NatToDecimal(i), i);
    }
  }

  /** A minus sign in front of digits negates them. */
  lemma ParseIntMinus(body: string, v: nat)
    requires ReadDigits(body) == Some(v)
    ensures ParseInt("-" + body) == Some(-(v as int))
  {
    assert ("-" + body)[1..] == body;
  }

  /** Digits with no sign read as themselves. */
  lemma ParseIntDigits(body: string, v: nat)
    requires ReadDigits(body) == Some(v)
    ensures ParseInt(body) == Some(v as int)
  {
    assert IsDigit(body[0]);
  }

  /** A non-empty string of digits is read whole. */
  lemma ReadAllDigits(d: string)
    requires |d| >= 1 && AllDigits(d)
    ensures ReadDigits(d) == Some(DigitsValue(d))
  {
    DigitPrefixLenConcat(d, []);
    assert d + [] == d;
    assert d[..|d|] == d;
  }
}
