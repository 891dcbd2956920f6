// String helpers for the JavaScript string operations the core uses:
// `toLowerCase` (ASCII letters only), `includes`, and the decimal rendering of
// an index inside a template literal.
module Text {

  /** ASCII lowering of one character; every other character is left alone. */
  function LowerChar(c: char): char
  {
    if 'A' <= c <= 'Z' then (c as int + 32) as char else c
  }

  /** `s.toLowerCase()`, restricted to ASCII letters. */
  function Lower(s: string): (r: string)
    ensures |r| == |s|
    ensures forall i :: 0 <= i < |s| ==> r[i] == LowerChar(s[i])
    ensures forall c :: c in r ==> !('A' <= c <= 'Z')
  {
    seq(|s|, i requires 0 <= i < |s| => LowerChar(s[i]))
  }

  /** `t` occurs in `s` starting at position `i`. */
  ghost predicate OccursAt(t: string, s: string, i: int)
  {
    0 <= i && i + |t| <= |s| && s[i..i + |t|] == t
  }

  /** `s.includes(t)`: scans `s` from the left for an occurrence of `t`. */
  function Includes(s: string, t: string): (r: bool)
    ensures r <==> exists i :: OccursAt(t, s, i)
    decreases |s|
  {
    if |t| > |s| then
      assert forall i :: !OccursAt(t, s, i);
      false
    else if s[..|t|] == t then
      assert OccursAt(t, s, 0);
      true
    else
      var rest := Includes(s[1..], t);
      ShiftOccurrence(t, s);
      rest
  }

  /** Occurrences of `t` in `s` past position 0 are the occurrences in `s[1..]`, shifted by one. */
  lemma ShiftOccurrence(t: string, s: string)
    requires |t| <= |s| && s[..|t|] != t
    ensures (exists i :: OccursAt(t, s, i)) <==> (exists i :: OccursAt(t, s[1..], i))
  {
    if exists i :: OccursAt(t, s, i) {
      var i :| OccursAt(t, s, i);
      assert i != 0;
      assert s[1..][i - 1..i - 1 + |t|] == s[i..i + |t|];
      assert OccursAt(t, s[1..], i - 1);
    }
    if exists i :: OccursAt(t, s[1..], i) {
      var i :| OccursAt(t, s[1..], i);
      assert s[1..][i..i + |t|] == s[i + 1..i + 1 + |t|];
      assert OccursAt(t, s, i + 1);
    }
  }

  function DigitChar(d: nat): (c: char)
    requires d < 10
    ensures '0' <= c <= '9'
  {
    ('0' as int + d) as char
  }

  /** The numeric value of a decimal digit character. */
  function DigitValue(c: char): int
  {
    c as int - '0' as int
  }

  /** The number a string of decimal digits denotes, most significant digit first. */
  function DigitsValue(s: string): int
    decreases |s|
  {
    if s == [] then 0 else 10 * DigitsValue(s[..|s| - 1]) + DigitValue(s[|s| - 1])
  }

  /** The decimal text of `n`, as `${n}` writes a non-negative integer: digits
      only, no leading zero, and denoting `n`. */
  function NatToString(n: nat): (r: string)
    ensures |r| >= 1
    ensures forall c :: c in r ==> '0' <= c <= '9'
    ensures r[0] == '0' ==> n == 0
    ensures |r| > 1 ==> r[0] != '0'
    ensures n == 0 ==> r == "0"
    ensures DigitsValue(r) == n
    decreases n
  {
    if n < 10 then
      [DigitChar(n)]
    else
      var prefix := NatToString(n / 10);
      var r := prefix + [DigitChar(n % 10)];
      assert r[..|r| - 1] == prefix;
      r
  }

  /** Distinct numbers have distinct decimal texts. */
  lemma NatToStringInjective(a: nat, b: nat)
    ensures NatToString(a) == NatToString(b) ==> a == b
  {
  }
}
