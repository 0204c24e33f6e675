/** String helpers with the meaning JavaScript gives them (strings are sequences of characters). */
module Text {

  predicate IsAsciiDigit(c: char) { '0' <= c <= '9' }

  /** One or more ASCII digits: the language of the regular expression `\d+`. */
  predicate IsDigits(s: string) { |s| > 0 && forall i :: 0 <= i < |s| ==> IsAsciiDigit(s[i]) }

  /** `s.startsWith(prefix)`. */
  predicate StartsWith(s: string, prefix: string) { prefix <= s }

  /** `t` occurs in `s` starting at index `i`. */
  predicate OccursAt(s: string, t: string, i: nat)
  {
    i + |t| <= |s| && s[i..i + |t|] == t
  }

  /** `s.includes(t)`: true iff `t` occurs somewhere in `s` (the empty string occurs everywhere). */
  function Contains(s: string, t: string): (r: bool)
    ensures r <==> exists i: nat :: i <= |s| && OccursAt(s, t, i)
  {
    if t <= s then
      assert OccursAt(s, t, 0);
      true
    else if s == [] then
      false
    else
      var r := Contains(s[1..], t);
      if r then
        var i: nat :| i <= |s[1..]| && OccursAt(s[1..], t, i);
        assert s[1..][i..i + |t|] == s[i + 1..i + 1 + |t|];
        assert OccursAt(s, t, i + 1);
        true
      else
        assert forall i: nat :: 1 <= i <= |s| && OccursAt(s, t, i) ==> OccursAt(s[1..], t, i - 1) by {
          forall i: nat | 1 <= i <= |s| && OccursAt(s, t, i)
            ensures OccursAt(s[1..], t, i - 1)
          {
            assert s[1..][i - 1..i - 1 + |t|] == s[i..i + |t|];
          }
        }
        false
  }

  /** `toLowerCase` restricted to ASCII: 'A'..'Z' become 'a'..'z', every other character is kept. */
  function LowerChar(c: char): char
  {
    if 'A' <= c <= 'Z' then (c as int + 32) as char else c
  }

  function ToLower(s: string): (r: string)
    ensures |r| == |s|
    ensures forall i :: 0 <= i < |s| ==> r[i] == LowerChar(s[i])
  {
    if s == [] then [] else [LowerChar(s[0])] + ToLower(s[1..])
  }

  /** The decimal digit of `d`. */
  function DigitChar(d: nat): char
    requires d < 10
  {
    ('0' as int + d) as char
  }

  /** Decimal notation of a natural number, as JavaScript prints an integral number. */
  function NatToString(n: nat): (r: string)
    ensures IsDigits(r)
    ensures |r| > 1 ==> r[0] != '0'
  {
    if n < 10 then [DigitChar(n)] else NatToString(n / 10) + [DigitChar(n % 10)]
  }

  /** Decimal notation of an integer, with a leading '-' when it is negative. */
  function IntToString(n: int): string
  {
    if n < 0 then "-" + NatToString(-n) else NatToString(n)
  }

  /** The value a string of digits denotes. */
  function DigitsValue(s: string): nat
    requires forall i :: 0 <= i < |s| ==> IsAsciiDigit(s[i])
  {
    if s == [] then 0
    else
      assert IsAsciiDigit(s[|s| - 1]);
      DigitsValue(s[..|s| - 1]) * 10 + (s[|s| - 1] as int - '0' as int)
  }

  /** Printing a number in decimal and reading it back gives the number. */
  lemma {:induction false} NatToStringValue(n: nat)
    ensures DigitsValue(NatToString(n)) == n
  {
    if n >= 10 {
      NatToStringValue(n / 10);
      var s := NatToString(n);
      assert s[..|s| - 1] == NatToString(n / 10);
    }
  }

  /** Length of the run of ASCII digits at the start of `s` (the greedy `\d+`). */
  function DigitRun(s: string): (n: nat)
    ensures n <= |s|
    ensures forall i :: 0 <= i < n ==> IsAsciiDigit(s[i])
    ensures n < |s| ==> !IsAsciiDigit(s[n])
  {
    if s != [] && IsAsciiDigit(s[0]) then 1 + DigitRun(s[1..]) else 0
  }
}
