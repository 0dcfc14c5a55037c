/**
 * Character-level helpers shared by the extractors: ASCII lower-casing,
 * substring search, digit runs and their decimal values, and the characters
 * Python's `\s` matches.  Text is `seq<char>` restricted to ASCII in meaning:
 * non-ASCII letters are left as they are by `Lower`.
 */
module Text {

  /** `str.lower()` on one ASCII character. */
  function LowerChar(c: char): char {
    if 'A' <= c <= 'Z' then (c as int + 32) as char else c
  }

  /** `str.lower()` on ASCII text. */
  function Lower(s: string): (r: string)
    ensures |r| == |s|
    ensures forall i :: 0 <= i < |s| ==> r[i] == LowerChar(s[i])
  {
    seq(|s|, i requires 0 <= i < |s| => LowerChar(s[i]))
  }

  /** `str.upper()` on one ASCII character. */
  function UpperChar(c: char): char {
    if 'a' <= c <= 'z' then (c as int - 32) as char else c
  }

  /** `str.upper()` on ASCII text. */
  function Upper(s: string): (r: string)
    ensures |r| == |s|
    ensures forall i :: 0 <= i < |s| ==> r[i] == UpperChar(s[i])
  {
    seq(|s|, i requires 0 <= i < |s| => UpperChar(s[i]))
  }

  /** `s.replace(",", "")`: every comma removed, everything else kept in order. */
  function RemoveCommas(s: string): (r: string)
    ensures ',' !in r
    ensures multiset(r) == multiset(s)[',' := 0]
  {
    if s == [] then []
    else
      assert s == [s[0]] + s[1..];
      if s[0] == ',' then RemoveCommas(s[1..])
      else [s[0]] + RemoveCommas(s[1..])
  }

  /** Removing commas works piece by piece, so the kept characters stay in their order. */
  lemma {:induction false} RemoveCommasAppend(a: string, b: string)
    ensures RemoveCommas(a + b) == RemoveCommas(a) + RemoveCommas(b)
  {
    if a != [] {
      assert (a + b)[1..] == a[1..] + b;
      RemoveCommasAppend(a[1..], b);
    } else {
      assert a + b == b;
    }
  }

  /** On one character: a comma is dropped, any other character is kept. */
  lemma RemoveCommasChar(c: char)
    ensures RemoveCommas([c]) == if c == ',' then [] else [c]
  {
  }

  /** A text without commas is left as it is. */
  lemma {:induction false} RemoveCommasNoComma(s: string)
    requires ',' !in s
    ensures RemoveCommas(s) == s
  {
    if s != [] {
      assert s == [s[0]] + s[1..];
      RemoveCommasNoComma(s[1..]);
    }
  }

  /** `w` occurs in `s` starting at position i. */
  predicate OccursAt(s: string, w: string, i: nat) {
    i + |w| <= |s| && s[i..i + |w|] == w
  }

  /** Python's `w in s` on strings: `w` occurs as a contiguous substring of `s`. */
  predicate Contains(s: string, w: string) {
    exists i: nat | i <= |s| :: OccursAt(s, w, i)
  }

  /** A substring holding a character that `s` lacks cannot occur in `s`. */
  lemma AbsentCharNotContained(s: string, w: string, c: char)
    requires c in w && c !in s
    ensures !Contains(s, w)
  {

  }

  predicate IsDigit(c: char) {
    '0' <= c <= '9'
  }

  predicate AllDigits(s: string) {
    forall i :: 0 <= i < |s| ==> IsDigit(s[i])
  }

  /** The characters of Python's `\s` (on `str` patterns) that lie in ASCII. */
  predicate IsSpace(c: char) {
    (9 <= c as int <= 13) || (28 <= c as int <= 31) || c == ' '
  }

  /** `int(ds)` for a string of decimal digits (leading zeros allowed). */
  function Value(ds: string): (v: nat)
    requires AllDigits(ds)
  {
    if ds == [] then 0
    else Value(ds[..|ds| - 1]) * 10 + (ds[|ds| - 1] as int - '0' as int)
  }

  function Pow10(k: nat): (p: nat)
    ensures p >= 1
  {
    if k == 0 then 1 else 10 * Pow10(k - 1)
  }

  /** A number written with k digits is below 10^k. */
  lemma {:induction false} ValueBelowPow10(ds: string)
    requires AllDigits(ds)
    ensures Value(ds) < Pow10(|ds|)
  {
    if ds != [] {
      ValueBelowPow10(ds[..|ds| - 1]);
    }
  }

  /** Pow10 is monotone in its exponent. */
  lemma {:induction false} Pow10Monotone(j: nat, k: nat)
    requires j <= k
    ensures Pow10(j) <= Pow10(k)
  {
    if j < k {
      Pow10Monotone(j, k - 1);
    }
  }

  /**
   * Length of the run of consecutive digits that starts at position i:
   * the part a greedy `\d+` (or `\d*`) consumes from there.
   */
  function DigitRun(s: string, i: nat): (n: nat)
    requires i <= |s|
    ensures i + n <= |s|
    ensures AllDigits(s[i..i + n])
    ensures i + n == |s| || !IsDigit(s[i + n])
    decreases |s| - i
  {
    if i < |s| && IsDigit(s[i]) then
      var m := DigitRun(s, i + 1);
      assert s[i..i + 1 + m] == [s[i]] + s[i + 1..i + 1 + m];
      1 + m
    else 0
  }

  /** Length of the run of `\s` characters that starts at position i. */
  function SpaceRun(s: string, i: nat): (n: nat)
    requires i <= |s|
    ensures i + n <= |s|
    ensures forall k :: i <= k < i + n ==> IsSpace(s[k])
    ensures i + n == |s| || !IsSpace(s[i + n])
    decreases |s| - i
  {
    if i < |s| && IsSpace(s[i]) then 1 + SpaceRun(s, i + 1) else 0
  }

  /** The number written by the digit run that starts at position i. */
  function RunValue(s: string, i: nat): nat
    requires i <= |s|
  {
    Value(s[i..i + DigitRun(s, i)])
  }
}
