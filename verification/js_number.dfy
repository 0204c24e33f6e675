/**
 * `isNaN(Number(s))` for a string `s`: the StringToNumber conversion of ECMA-262
 * (section 7.1.4.1.1) yields NaN exactly when `s`, with white space stripped from
 * both ends, is neither empty nor a StringNumericLiteral.
 */
module JsNumber {
  import opened Text

  /** WhiteSpace and LineTerminator code points (ECMA-262 sections 12.2 and 12.3). */
  predicate IsStrWhiteSpaceChar(c: char)
  {
    c == '\t' || c == '\U{000B}' || c == '\U{000C}' || c == ' ' || c == '\U{00A0}' || c == '\U{FEFF}'
    || c == '\U{1680}' || ('\U{2000}' <= c <= '\U{200A}') || c == '\U{202F}' || c == '\U{205F}'
    || c == '\U{3000}' || c == '\n' || c == '\r' || c == '\U{2028}' || c == '\U{2029}'
  }

  function TrimStart(s: string): (r: string)
    ensures r <= s || (|r| <= |s| && r == s[|s| - |r|..])
    ensures r != [] ==> !IsStrWhiteSpaceChar(r[0])
  {
    if s != [] && IsStrWhiteSpaceChar(s[0]) then TrimStart(s[1..]) else s
  }

  function TrimEnd(s: string): (r: string)
    ensures r <= s
    ensures r != [] ==> !IsStrWhiteSpaceChar(r[|r| - 1])
  {
    if s != [] && IsStrWhiteSpaceChar(s[|s| - 1]) then TrimEnd(s[..|s| - 1]) else s
  }

  function Trim(s: string): string { TrimEnd(TrimStart(s)) }

  /** SignedInteger: an optional sign and DecimalDigits. */
  predicate IsSignedInteger(s: string)
  {
    IsDigits(s) || (|s| > 0 && (s[0] == '+' || s[0] == '-') && IsDigits(s[1..]))
  }

  /** ExponentPart: `e` or `E` followed by a SignedInteger. */
  predicate IsExponentPart(s: string)
  {
    |s| > 0 && (s[0] == 'e' || s[0] == 'E') && IsSignedInteger(s[1..])
  }

  /** Index of the first '.' in `s`, or |s| when there is none. */
  function PointIndex(s: string): (k: nat)
    ensures k <= |s|
    ensures forall i :: 0 <= i < k ==> s[i] != '.'
    ensures k < |s| ==> s[k] == '.'
  {
    if s == [] then 0 else if s[0] == '.' then 0 else 1 + PointIndex(s[1..])
  }

  /** Index of the first 'e' or 'E' in `s`, or |s| when there is none. */
  function ExponentIndex(s: string): (k: nat)
    ensures k <= |s|
    ensures forall i :: 0 <= i < k ==> s[i] != 'e' && s[i] != 'E'
    ensures k < |s| ==> s[k] == 'e' || s[k] == 'E'
  {
    if s == [] then 0 else if s[0] == 'e' || s[0] == 'E' then 0 else 1 + ExponentIndex(s[1..])
  }

  /** The digits-and-point part of a StrUnsignedDecimalLiteral: `D`, `D.`, `D.D` or `.D`. */
  predicate IsMantissa(m: string)
  {
    var d := PointIndex(m);
    if d == |m| then IsDigits(m)
    else if d == 0 then IsDigits(m[1..])
    else IsDigits(m[..d]) && (d + 1 == |m| || IsDigits(m[d + 1..]))
  }

  /** StrUnsignedDecimalLiteral: `Infinity`, or a mantissa with an optional exponent. */
  predicate IsStrUnsignedDecimalLiteral(s: string)
  {
    var k := ExponentIndex(s);
    s == "Infinity" || (IsMantissa(s[..k]) && (k == |s| || IsExponentPart(s[k..])))
  }

  predicate IsStrDecimalLiteral(s: string)
  {
    IsStrUnsignedDecimalLiteral(s)
    || (|s| > 0 && (s[0] == '+' || s[0] == '-') && IsStrUnsignedDecimalLiteral(s[1..]))
  }

  /** NonDecimalIntegerLiteral without numeric separators: `0b`, `0o` or `0x` and at least one digit of that base. */
  predicate IsNonDecimalIntegerLiteral(s: string)
  {
    |s| >= 3 && s[0] == '0' &&
    (if s[1] == 'b' || s[1] == 'B' then forall i :: 2 <= i < |s| ==> s[i] == '0' || s[i] == '1'
     else if s[1] == 'o' || s[1] == 'O' then forall i :: 2 <= i < |s| ==> '0' <= s[i] <= '7'
     else if s[1] == 'x' || s[1] == 'X' then
       forall i :: 2 <= i < |s| ==> IsAsciiDigit(s[i]) || 'a' <= s[i] <= 'f' || 'A' <= s[i] <= 'F'
     else false)
  }

  /** `!isNaN(Number(s))`. */
  predicate IsNumeric(s: string)
  {
    var t := Trim(s);
    t == [] || IsStrDecimalLiteral(t) || IsNonDecimalIntegerLiteral(t)
  }

  /** Every string of ASCII digits converts to a number. */
  lemma DigitsAreNumeric(s: string)
    requires IsDigits(s)
    ensures IsNumeric(s)
  {
    assert TrimStart(s) == s;
    assert TrimEnd(s) == s;
    DigitsHaveNoMarkers(s);
    assert s[..|s|] == s;
  }

  lemma {:induction false} DigitsHaveNoMarkers(s: string)
    requires forall i :: 0 <= i < |s| ==> IsAsciiDigit(s[i])
    ensures ExponentIndex(s) == |s| && PointIndex(s) == |s|
  {
    if s != [] {
      DigitsHaveNoMarkers(s[1..]);
    }
  }

  /** White space around a number is ignored. */
  lemma SurroundingSpaceIsNumeric()
    ensures IsNumeric(" 7 ")
  {
    assert Trim(" 7 ") == "7";
    DigitsAreNumeric("7");
  }

  /** An exponent is accepted. */
  lemma ExponentIsNumeric()
    ensures IsNumeric("1e3")
  {
    assert Trim("1e3") == "1e3";
    assert ExponentIndex("1e3") == 1;
    assert "1e3"[..1] == "1" && "1e3"[1..] == "e3" && "e3"[1..] == "3";
    assert PointIndex("1") == 1;
  }

  /** Hexadecimal is accepted. */
  lemma HexIsNumeric()
    ensures IsNumeric("0x1f")
  {
    assert Trim("0x1f") == "0x1f";
  }

  /** `Infinity` is a number. */
  lemma InfinityIsNumeric()
    ensures IsNumeric("Infinity")
  {
    assert Trim("Infinity") == "Infinity";
  }

  /** A string of white space alone converts to 0, not NaN. */
  lemma BlankIsNumeric()
    ensures IsNumeric("   ")
  {
    assert Trim("   ") == "";
  }

  /** A trailing unit makes the conversion NaN. */
  lemma UnitSuffixIsNaN()
    ensures !IsNumeric("12px")
  {
    assert Trim("12px") == "12px";
    assert ExponentIndex("12px") == 4;
    assert PointIndex("12px") == 4;
    assert "12px"[..4] == "12px";
    assert "12px"[1..] == "2px";
    assert ExponentIndex("2px") == 3;
    assert PointIndex("2px") == 3;
    assert "2px"[..3] == "2px";
  }

  /** Two decimal points make the conversion NaN. */
  lemma TwoPointsIsNaN()
    ensures !IsNumeric("1.2.3")
  {
    assert Trim("1.2.3") == "1.2.3";
    assert ExponentIndex("1.2.3") == 5;
    assert "1.2.3"[..5] == "1.2.3";
    assert PointIndex("1.2.3") == 1;
    assert "1.2.3"[2..] == "2.3";
    assert "1.2.3"[1..] == ".2.3";
    assert ExponentIndex(".2.3") == 4;
    assert ".2.3"[..4] == ".2.3";
    assert PointIndex(".2.3") == 0;
  }
}
